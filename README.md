# Spomato in Dafny

Spomato builds time-boxed Spotify playlists. It reads a pool of tracks (the
user's saved tracks, named playlists or artists' albums), one `song_id,time` row
per track available in a market. It draws tracks at random until the running
total passes the target (`time` minutes) without ever exceeding `time + extra`
minutes. It then publishes the picks as a playlist, replacing the tracks of an
existing playlist with that name or creating a private one.

This project models the core of that program:

- the greedy picker in both forms: `pick_songs` in `spomato/data.py` and
  `Spomato.pick_tracks` in `spomato/spomato.py`;
- the payload parsers;
- the saved-tracks pager and `drop_duplicates`;
- the new-data dispatch over source types;
- the playlist publish decision;
- the string and clock helpers of the OAuth flow in `spomato/token.py`.

Modules, one per source file plus shared pieces:

- `Tables` (tables.dfy): the `song_id,time` row, the exceptions, the mask
  filters, `drop_duplicates`, and `pd.concat` over parts that may each have
  raised.
- `Parsers` (parsers.dfy): spomato/parsers.py. Each parser is a `for` loop
  proved equal to the filter-map `Qualifying`.
- `Catalog` (catalog.dfy): the remote account as one value. The read calls of
  the spotipy client are functions of it. The write calls are methods of a
  `Session` class that updates it.
- `Selector` (selector.dfy): the two picker loops as recursive functions of the
  loop state (`Greedy` for data.py, `GreedyNarrowing` for spomato.py) and what
  they guarantee.
- `Publisher` (publish.dfy): the publish decision shared by both
  `make_playlist`s.
- `Data` (data.dfy): spomato/data.py. Every operation is a method proved
  against a function of the account it reads.
- `Token` (token.dfy): spomato/token.py, as pure functions and lemmas.
- `Client` (spomato.dfy): spomato/spomato.py, the `Spomato` class with its
  fields and methods.

`DataFrame.sample()` is a draw stream `draws: nat -> nat`. The k-th draw takes
the row at `draws(k) % |eligible|`, so every property holds for every sequence
the sampler could produce. Calls into the catalog service, the browser, the
HTTP layer and the clock are parameters or abstract state. The saved-tracks
library is one flat sequence of items, and the page at offset `i*50` is its
slice from `i*50` to `i*50+50`.

Durations are in seconds. `time_limit`, when given, is used as it stands, in
seconds, as the code does (spomato/data.py:87-89, spomato/spomato.py:202-204).
Only the default `time*60/3.0` is derived from the target in minutes.

## Model

| member | source | states |
|---|---|---|
| Tables.AtMostMembers | spomato/data.py:89 | `df[df.time <= bound]` keeps exactly the rows whose time is within the bound |
| Tables.WithoutIdMembers | spomato/data.py:105-106 | `df[df.song_id != id]` keeps exactly the rows carrying another id |
| Tables.WithoutIdShrinks | spomato/data.py:104-106 | dropping the id of a row that is present removes at least one row, so the pool shrinks with every draw |
| Tables.WithoutIdsMembers | spomato/data.py:105 | the table without a set of ids keeps exactly the rows whose id is outside the set |
| Tables.AtMostAtMost | spomato/spomato.py:204-211 | filtering by duration twice is filtering once by the smaller bound |
| Tables.AtMostKeepsAll | spomato/spomato.py:211 | a bound every row meets filters nothing out |
| Tables.AtMostWithoutId | spomato/spomato.py:211-220 | the id filter and the duration filter commute |
| Tables.DedupKeepsFirstOccurrences | spomato/spomato.py:190 | `drop_duplicates` keeps every row of its input and no other, leaves no two identical rows, and keeps the rows in the order of their first occurrences |
| Tables.FlattenMembers | spomato/data.py:50 | a row of a concatenation is a row of one of the parts, and every row of every part is in it |
| Tables.GatheredSuccess | spomato/data.py:44-50 | a loop collecting parts one after the other succeeds exactly when every part does, and then keeps every part's table in order |
| Tables.GatheredFailure | spomato/data.py:44-50 | when a part raises after parts that did not, the collection raises that part's exception |
| Tables.ConcatAllSuccess | spomato/data.py:50 | `pd.concat` over the collected parts succeeds exactly when there is at least one part and none raised, and then holds every part's rows in order |
| Parsers.QualifyingConcat | spomato/parsers.py:6-13 | the filter-map of a concatenation is the concatenation of the filter-maps |
| Parsers.QualifyingExactly | spomato/parsers.py:6-13 | a parser keeps exactly the records available in the market, each as `(id, duration_ms/1000)`, never more rows than records, and none exactly when no record is available |
| Parsers.ParseAlbum | spomato/parsers.py:3-18 | the loop returns the album's records available in `market`, in order, and an empty table when there is none |
| Parsers.ParsePlaylist | spomato/parsers.py:20-34 | the loop unwraps `item['track']`, keeps the records available in `market` in order, and raises when none qualifies, empty input included |
| Parsers.ParseSavedTracks | spomato/parsers.py:36-49 | the same filter-map over a bare list of items, raising when none qualifies |
| Catalog.SavedPage | spomato/data.py:70 | `current_user_saved_tracks(limit, offset)` returns the saved items at positions `offset` to `offset+limit-1`, as many as exist |
| Catalog.PageNonEmpty | spomato/data.py:69-76 | the page at offset `i*50` is non-empty exactly when `i` is below the page count, so the pager stops at the first empty page |
| Publisher.ListedFirstMatch | spomato/data.py:158-162 | the fresh listing raises exactly when the user has no playlist; otherwise it has a row named `name` exactly when some playlist has that name, and its first such row holds the id of the first playlist with that name in listing order |
| Catalog.MatchingIdsMembers | spomato/data.py:43-45 | `isin(sourcelist)` selects exactly the ids of the rows whose name was asked for, and no more ids than rows |
| Catalog.Session.UserPlaylistReplaceTracks | spomato/data.py:136-139 | the playlist afterwards holds exactly the given ids, and an unknown id fails and changes nothing |
| Catalog.Session.UserPlaylistAddTracks | spomato/data.py:145 | the given ids are appended to the playlist, and an unknown id fails and changes nothing |
| Catalog.Session.UserPlaylistCreate | spomato/data.py:142 | a new empty playlist with the given visibility is listed first, and every listed playlist stays backed by contents |
| Selector.Draw | spomato/data.py:104 | every draw takes a position inside the eligible pool |
| Selector.NextFits | spomato/data.py:96-104 | the loop stops exactly when `time_used > time` or no pool row fits the time left; otherwise the drawn row is a pool row that fits and whose removal shrinks the pool |
| Selector.NextNarrowed | spomato/spomato.py:211 | narrowing the pool to any bound at least the time left does not change what is drawn next |
| Selector.GreedyPicksFromPool | spomato/data.py:104 | every pick is a row of the ceiling-filtered pool |
| Selector.GreedyPicksDistinct | spomato/data.py:104-106 | no id is picked twice, and the loop draws at most once per row of `subdf` |
| Selector.GreedyUsed | spomato/data.py:109 | `time_used` at the end is its start value plus the picked durations |
| Selector.GreedyWithinBudget | spomato/data.py:96-109 | every running total of the picks stays within `time*60 + extra*60` |
| Selector.GreedyStops | spomato/data.py:96-102 | on exit either `time_used > time*60` or no row left in `subdf` fits in the time left |
| Selector.GreedyRest | spomato/data.py:105-113 | the returned `df` is the input without every picked id, the other rows unchanged and in order, and so is the final `subdf` |
| Selector.NarrowingAgrees | spomato/spomato.py:204-222 | with non-negative durations, narrowing `track_df` in place admits the same rows at every step as narrowing a fresh copy, so both loops make the same picks from any state |
| Selector.TwinsAgree | spomato/spomato.py:200-222 | from the ceiling-filtered table and for the same draws, `pick_tracks` picks exactly what `pick_songs` picks, whenever no duration is negative |
| Selector.NarrowingWithinBudget | spomato/spomato.py:211-222 | the class loop's picks are rows of its table with distinct ids, every running total within `time*60 + extra*60`, with no assumption on the durations |
| Publisher.NameIndex | spomato/data.py:135 | the position of the first row carrying the name, or the end when no row carries it |
| Publisher.FirstMatchSpec | spomato/data.py:133-135 | there is a first match exactly when the name is in `playlist_name.tolist()`, and it is the id of the first row with that name |
| Publisher.CreatedIsFirstMatch | spomato/data.py:142-144 | after creating a playlist under a new name, listing again succeeds and its first match is the new playlist |
| Publisher.PublishPlaylist | spomato/data.py:129-145 | the calls `make_playlist` makes, in their order, on the session, leave the outcome and account that the publish decision states |
| Publisher.PublishReplaces | spomato/data.py:133-139 | when the name is present, the first matching playlist ends up holding exactly the picked ids in `songdf` order, and nothing else changes |
| Publisher.PublishCreates | spomato/data.py:140-145 | when the name is absent, one new private playlist with that name is listed first and holds exactly the picked ids in order; the rest of the account (other playlists and their tracks, the library, the catalog, the artists and albums) is unchanged |
| Publisher.PublishNoListing | spomato/data.py:130-131 | with no listing given and no playlist at all, listing raises and the account is untouched |
| Publisher.PublishConsistent | spomato/data.py:129-145 | publishing keeps every listed playlist backed by contents |
| Publisher.PublishTwice | spomato/spomato.py:242-267 | publishing the same picks under the same name again, listing afresh, is a replace with the same ids and changes nothing more |
| Data.PickSongs | spomato/data.py:83-113 | the loop returns the run of the greedy specification from the ceiling-filtered table (picks and remaining `df`), or raises when nothing was picked |
| Data.PickSongsSpec | spomato/data.py:83-113 | `pick_songs` raises exactly when the target is negative or no row fits both the ceiling and `time + extra`; otherwise the picks are rows of `df` under the ceiling, with distinct ids, every running total within `time + extra`, `df` comes back without the picked ids, and the loop stopped only once the target was passed or no unpicked row under the ceiling fitted |
| Data.GetSavedTracks | spomato/data.py:65-81 | the pager reads offsets `0, 50, 100, …` until the first empty page and returns the concatenated parsed pages, or the first parse failure |
| Data.PagesFlatten | spomato/data.py:69-79 | the first `n` pages concatenated are the parsed rows of the first `n*50` library items, in library order |
| Data.SavedTracksSpec | spomato/data.py:65-81 | `get_saved_tracks` succeeds exactly when the library is non-empty and every page of 50 holds a track available in the default market; it then returns every such track in library order, one row per item, with no dedup |
| Data.GetArtistData | spomato/data.py:117-126 | the loop parses each of the artist's albums and concatenates them, raising on an unknown artist or album, or when there are no albums |
| Data.ArtistDataSpec | spomato/data.py:117-126 | `get_artist_data` succeeds exactly when the artist is known, has albums and every album is known; its rows are the rows each album's parse keeps |
| Data.GetNewData | spomato/data.py:34-63 | the dispatch returns the saved tracks, the deduplicated tables of the named playlists or artists, or raises `UnboundLocalError` on another source type |
| Data.DedupedParts | spomato/data.py:50-51 | concatenating the parts and dropping duplicates keeps each row of every part once, and nothing else |
| Data.NewDataSpec | spomato/data.py:34-63 | an unknown source type raises; a playlist source matching no playlist raises; otherwise a playlist or artist source gives each row of the named playlists' or artists' tables exactly once |
| Data.MakePlaylistAsWritten | spomato/data.py:129-131 | a listing passed by the caller makes `playlist_df == None` raise before anything is touched; without one it publishes |
| Data.GivenListingIsUsable | spomato/data.py:130-139 | a caller's listing naming the playlist is meant to lead to a replace, which succeeds on a concrete account |
| Token.SplitWords | spomato/token.py:100 | every token of `str.split()` is non-empty and holds no whitespace |
| Token.SplitEmpty | spomato/token.py:100 | the split finds no token exactly when the text is all whitespace |
| Token.SplitJoin | spomato/token.py:100-102 | words joined by single spaces split back into the same words |
| Token.JoinTrimmed | spomato/token.py:102 | words joined by single spaces neither start nor end with whitespace, and the join is empty only for no words |
| Token.SortSpec | spomato/token.py:101 | the sort returns its input in ascending string order, duplicates kept |
| Token.SortedUnique | spomato/token.py:101 | two ascending lists of the same tokens are equal, so the result does not depend on how it was sorted |
| Token.NormalizeScopeNone | spomato/token.py:98-104 | `_normalize_scope` returns None exactly for None and for the empty string |
| Token.NormalizeScopeTokens | spomato/token.py:99-102 | a non-empty scope comes back as its whitespace tokens sorted ascending with duplicates kept, joined by single spaces, with no leading or trailing whitespace |
| Token.NormalizeScopeIdempotent | spomato/token.py:99-102 | normalising a normalised non-empty scope returns it unchanged |
| Token.NormalizeScopeBlank | spomato/token.py:99-102 | a non-empty scope of whitespace alone gives `''`, not None, and nothing else does |
| Token.RequestedScope | spomato/token.py:44-47 | the requested `read_scope + ' ' + modify_scope` normalises to `playlist-modify-private playlist-read-private` |
| Token.SplitOnJoin | spomato/token.py:89 | joining the pieces of `str.split(sep)` with the separator gives the text back |
| Token.SplitOnFree | spomato/token.py:89 | no piece of `str.split(sep)` holds the separator |
| Token.FirstPiece | spomato/token.py:89 | the first piece of a split is a prefix of the text, free of the separator, ending at the end or at the first separator |
| Token.GetUrlCodeSpec | spomato/token.py:89 | the code extraction raises `IndexError` exactly when `?code=` is absent; otherwise the code is the text right after the first `?code=`, up to the first `&`, the next `?code=` or the end, and holds neither |
| Token.NeedsRefreshSpec | spomato/token.py:20 | for a clock at or past the epoch, the cached token is renewed exactly when the clock has reached `expires_at` |
| Token.AddCustomValuesSpec | spomato/token.py:106-113 | the token info gains `expires_at = int(now) + expires_in` and the scope, keeps every other entry, raises `KeyError` on a missing `expires_in`, and a string or None `expires_in` raises `TypeError` |
| Token.TokenLifetime | spomato/token.py:20 | a token stored at clock `now` is renewed at a later clock exactly when that clock has reached `int(now) + expires_in` |
| Client.Spomato.constructor | spomato/spomato.py:24-39 | the credentials and refresh settings are stored, a token is taken only when both username and password are given, and a fresh session acts on the account |
| Client.Spomato.GetSetToken | spomato/spomato.py:41-46 | with both credentials the token and its expiration are stored; otherwise nothing changes |
| Client.Spomato.ParseAlbum | spomato/spomato.py:52-67 | the album's records available in `market`, in order, with an empty table when none is |
| Client.Spomato.ParsePlaylist | spomato/spomato.py:69-86 | the playlist's records available in `market`, in order, with an empty table rather than an error when none is |
| Client.Spomato.ParseSavedTracks | spomato/spomato.py:88-102 | the items' records available in `market`, in order, with an empty table rather than an error when none is |
| Client.Spomato.GetSavedTracks | spomato/spomato.py:175-192 | the pager reads offsets `i*50` to the first empty page; the result raises exactly when the library is empty and is otherwise every library track available in the default market, deduplicated, in library order |
| Client.SavedTracksOfSpec | spomato/spomato.py:175-192 | the saved-tracks table holds each library track available in the default market exactly once, and nothing else |
| Client.Spomato.PickTracks | spomato/spomato.py:194-226 | with line 216 read as `len(track_df) == 0`, the loop returns the narrowing run from the ceiling-filtered table, or raises when nothing was picked |
| Client.Spomato.DrawTracks | spomato/spomato.py:205-222 | the `while not done` loop picks exactly the narrowing run of its table |
| Client.PickTracksAgrees | spomato/spomato.py:200-224 | with non-negative durations, `pick_tracks` fails exactly when `pick_songs` fails and otherwise returns the same picks |
| Client.PickTracksSpec | spomato/spomato.py:200-224 | for any durations, `pick_tracks` raises exactly when no row fits both the ceiling and `time + extra`; its picks are rows under the ceiling with distinct ids, every running total within `time + extra` |
| Client.OneTrackIsPicked | spomato/spomato.py:209-224 | a one-minute track is picked for a 25-minute target under any draw stream |
| Client.Spomato.PickTracksAsWritten | spomato/spomato.py:213-224 | as written, the first evaluation of line 216 raises unless the target is negative, in which case nothing was picked to concatenate; it never returns picks |
| Client.Spomato.GetArtistData | spomato/spomato.py:230-239 | the artist's albums parsed and concatenated, as `get_artist_data` does |
| Client.Spomato.PlaylistTracks | spomato/spomato.py:147-160 | the listed playlists selected by name, each parsed with the default market, concatenated and deduplicated; a listing or service failure propagates |
| Client.Spomato.ArtistTracks | spomato/spomato.py:162-171 | the artists' tables concatenated and deduplicated, the first failure stopping the loop |
| Client.Spomato.GetNewData | spomato/spomato.py:136-173 | with each branch reading its own entry and every collected table returned, the loop returns the concatenation of the recognised sources' tables in key order, or the first exception |
| Client.SourcePartsSplit | spomato/spomato.py:141 | the sources split anywhere give the tables of each side, in key order |
| Client.NewDataSpec | spomato/spomato.py:136-173 | with no recognised source there is nothing to concatenate; otherwise the rows are exactly the rows of the sources' tables |
| Client.Spomato.GetNewDataAsWritten | spomato/spomato.py:136-173 | as written: the value of `data` the last recognised key left; an artist key before any playlist key reads an unbound `sourcelist`; no recognised key leaves `data` unbound |
| Client.LastSourceWins | spomato/spomato.py:173 | with saved tracks and then a playlist, as written only the playlist's table comes back, where both tables concatenated are meant |
| Client.ArtistAloneIsUnbound | spomato/spomato.py:165 | an artist key with no playlist key before it raises `UnboundLocalError` as written, where the artists it names are meant |
| Client.ArtistAloneIsFetched | spomato/spomato.py:162-171 | as intended, one known artist with known albums gives a table |
| Client.Spomato.MakePlaylist | spomato/spomato.py:242-267 | with `is None` as the test, the caller's listing is used when given and the publish decision is carried out on the session |

## Left out

- The catalog service (spotipy) is not modelled beyond the abstract account. `current_user_saved_tracks`, `current_user_playlists`, `user_playlist`, `artist_albums`, `albums` and the three playlist writes act on one account value. User ids select nothing, because a session has one account.
- The read calls' page limits are not modelled. Here every playlist is listed, every playlist track returned and every album of an artist fetched. spotipy's defaults return only the first page: 50 playlists from `current_user_playlists`, 100 tracks from `user_playlist`, 20 albums from `artist_albums`. So the model does not capture that `make_playlist` misses a playlist with the target name beyond the 50th.
- The write calls' request limit is not modelled. The service takes at most 100 track ids per `user_playlist_replace_tracks` or `user_playlist_add_tracks` request; here Replace, Add and the Session writes accept any number. So Publisher.PublishReplaces and Publisher.PublishCreates promise all the picked ids even beyond 100, where the service would refuse the request.
- That `user_playlist_create` lists the new playlist first is an assumption about the service, in Catalog.Session.UserPlaylistCreate and Publisher.Create. It decides the outcome only when the caller's listing is stale and lacks a name the account already has: the listing taken after the create then finds the new playlist rather than the older one with that name.
- The `Albums` read call of the catalog fails when any id is unknown. What the service does with an empty id list is not modelled: it gives an empty album list here.
- CSV caching is file I/O and is not modelled. This covers `get_data`, `cache_data`, `load_cached_data`, `_cache_data`, `_load_cached_data` and the cached branch of `get_token`. Only the expiry test at spomato/token.py:20 is modelled.
- The browser session of `get_url_code`, `requests.post`, `SpotifyOAuth`, `os.getenv` and `time.time()` are I/O, environment or clock. Only the code extraction at spomato/token.py:89 is modelled, and the clock is the parameter `now`.
- `spotify_token.start_session` is a foreign call; its result is the constructor parameter `grant`.
- `_make_authorization_headers` is a base64 library call (section 4 of RFC 4648) and is not modelled.
- `artist_id_search` (both copies) is a thin wrapper around a search call and is not modelled.
- The `validate_token` stub does nothing and is not modelled. Neither is the `self.data` dict, which nothing reads.
- The `market` argument of `get_new_data` and `_get_new_data` is never read, so it is not a parameter. Every parser call there uses the default `'US'`.
- The token passed to `spotipy.Spotify(auth=…)` is not kept in the session; the account the session acts on is a constructor parameter.
- The distribution of `DataFrame.sample()` is not modelled: each draw is an arbitrary position in the eligible pool.
- The pandas index, including `reset_index(drop=True)` and `.T`, is not modelled. Tables are sequences of rows.
- Floating point is not modelled: `duration_ms/1000`, `time*60` and `time/3.0` are exact `real` arithmetic, with no IEEE rounding.
- In `_get_new_data` the `source` dict is a sequence of entries in key order. Nothing prevents a key from repeating in the model.
- Client.PickTracksAgrees, Selector.TwinsAgree: these assume no duration is negative. A negative duration lets the in-place narrowing of `pick_tracks` drop rows that `pick_songs` would still admit later.
- Token.NormalizeScopeIdempotent: stated for scopes that do not normalise to `''`, because `''` normalises to None.
- Token.NeedsRefreshSpec, Token.TokenLifetime: stated for clocks at or past the epoch, where `int()` truncation is the floor.
- Token.AddCustomValuesSpec: float and bool values of `expires_in` are not modelled; Python adds them without raising and stores a float `expires_at`.

## Findings

| source | as written | input that shows it | evidently intended | confidence | as-written member | corrected member |
|---|---|---|---|---|---|---|
| spomato/spomato.py:216 | `len(track_df).isempty()` calls a method an `int` does not have, so the first pass with `time_used <= time` raises `AttributeError` and `pick_tracks` never returns picks | any table, e.g. one 60-second track with `time=25` | `len(track_df) == 0`, as at spomato/data.py:101 | high, not executed | Client.Spomato.PickTracksAsWritten | Client.Spomato.PickTracks, Client.OneTrackIsPicked |
| spomato/spomato.py:173 | `return data` returns only the last recognised source's table; `data_list` is collected and never used | `source = {'savedtracks': None, 'playlist': [name]}` with both fetches succeeding | `pd.concat(data_list)`, with no deduplication across sources: a track that is both saved and in a named playlist appears once per source | high, not executed | Client.LastSourceWins, Client.Spomato.GetNewDataAsWritten | Client.Spomato.GetNewData |
| spomato/spomato.py:165 | the artist branch iterates over `sourcelist`, bound only by an earlier `playlist` key, so `{'artist': [...]}` raises `UnboundLocalError` (and after a playlist key it iterates over the playlist names) | `source = {'artist': [artist_id]}` | `source[sourcetype]` | high, not executed | Client.ArtistAloneIsUnbound, Client.Spomato.GetNewDataAsWritten | Client.Spomato.GetNewData, Client.ArtistAloneIsFetched |
| spomato/data.py:130 | `playlist_df == None` on a DataFrame gives a DataFrame whose truth value raises `ValueError`, so a listing passed by the caller is never usable | `make_playlist(sp, 'focus', songdf, user, playlist_df=<listing naming 'focus'>)` | `playlist_df is None`, as at spomato/spomato.py:247 | high, not executed | Data.MakePlaylistAsWritten | Publisher.PublishPlaylist, Data.GivenListingIsUsable |
