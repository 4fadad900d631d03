/** spomato/data.py: the module-level data layer. Each network call reads or
    changes the account behind a `Session`; every operation is a method proved
    against a function of the account it sees. */
module Data {
  import opened Tables
  import opened Parsers
  import opened Catalog
  import opened Selector
  import opened Publisher

  /** What `pick_songs` returns: `songdf`, the picks in draw order, and `df`, the
      input with the picked ids removed. */
  datatype Picked = Picked(songs: seq<Track>, rest: seq<Track>)

  /** `pick_songs` with `time*60`, `extra*60` and the ceiling already worked out:
      the run of the loop from the ceiling-filtered table; `pd.concat([])` raises
      when nothing was picked. */
  function PickSongsOf(df: seq<Track>, target: real, slack: real, ceiling: real,
                       draws: nat -> nat): Result<Picked>
  {
    var run := Greedy(AtMost(df, ceiling), df, 0.0, target, slack, draws, 0);
    if run.picks == [] then Failure(NoObjectsToConcatenate) else Success(Picked(run.picks, run.rest))
  }

  /** pick_songs: `time` and `extra` in minutes, `time_limit` in seconds (None for a
      third of the target); the k-th `sample()` takes the row at `draws(k) %
      |eligible|` of the eligible rows. */
  method PickSongs(df: seq<Track>, time: real, extra: real, timeLimit: Option<real>,
                   draws: nat -> nat) returns (r: Result<Picked>)
    ensures r == PickSongsOf(df, time * 60.0, extra * 60.0, Ceiling(time, timeLimit), draws)
  {
    var target := time * 60.0;
    var slack := extra * 60.0;
    var limit := if timeLimit.None? then target / 3.0 else timeLimit.value;
    var subdf := AtMost(df, limit);
    var rest := df;
    var timeUsed := 0.0;
    var songList: seq<Track> := [];
    var k: nat := 0;
    ghost var start := Greedy(subdf, df, 0.0, target, slack, draws, 0);
    assert limit == Ceiling(time, timeLimit);
    ghost var spec := PickSongsOf(df, target, slack, limit, draws);
    assert [] + start.picks == start.picks;
    while true
      invariant Resumes(start, songList, subdf, rest, timeUsed, target, slack, draws, k)
      decreases |subdf|
    {
      var subdf2 := AtMost(subdf, target + slack - timeUsed);
      if timeUsed > target || |subdf2| == 0 {
        GreedyDone(subdf, rest, timeUsed, target, slack, draws, k);
        break;
      }
      var song := subdf2[Draw(draws, k, |subdf2|)];
      assert Next(subdf, timeUsed, target, slack, draws, k) == Some(song);
      NextFits(subdf, timeUsed, target, slack, draws, k);
      var used' := timeUsed + song.time;
      ResumesStep(start, songList, subdf, rest, timeUsed, target, slack, draws, k, song, used');
      rest := WithoutId(rest, song.id);
      subdf := WithoutId(subdf, song.id);
      songList := songList + [song];
      timeUsed := used';
      k := k + 1;
    }
    assert songList + [] == songList;
    if songList == [] {
      r := Failure(NoObjectsToConcatenate);
    } else {
      r := Success(Picked(songList, rest));
    }
    assert r == spec;
  }

  /** The loop invariant of `pick_songs`: the run from the state after `k` draws,
      appended to the picks so far, is the run from the start. */
  ghost predicate Resumes(start: Run, songList: seq<Track>, subdf: seq<Track>, rest: seq<Track>,
                          timeUsed: real, target: real, slack: real, draws: nat -> nat, k: nat)
  {
    var g := Greedy(subdf, rest, timeUsed, target, slack, draws, k);
    start == g.(picks := songList + g.picks)
  }

  /** A drawn row keeps the invariant. */
  lemma ResumesStep(start: Run, songList: seq<Track>, subdf: seq<Track>, rest: seq<Track>,
                    timeUsed: real, target: real, slack: real, draws: nat -> nat, k: nat,
                    song: Track, used': real)
    requires Resumes(start, songList, subdf, rest, timeUsed, target, slack, draws, k)
    requires Next(subdf, timeUsed, target, slack, draws, k) == Some(song)
    requires used' == timeUsed + song.time
    ensures Resumes(start, songList + [song], WithoutId(subdf, song.id), WithoutId(rest, song.id),
                    used', target, slack, draws, k + 1)
  {
    GreedyStep(subdf, rest, timeUsed, target, slack, draws, k, song, used');
    var next := Greedy(WithoutId(subdf, song.id), WithoutId(rest, song.id), used', target, slack, draws, k + 1);
    assert songList + ([song] + next.picks) == (songList + [song]) + next.picks;
  }

  /** What `pick_songs` promises: it raises exactly when the target is negative or
      no row fits both the ceiling and `target + slack`; otherwise the picks are rows
      of `df` under the ceiling, with distinct ids, every running total within
      `target + slack`, `df` comes back without the picked ids, and the loop stopped
      only once the target was passed or no unpicked row under the ceiling fitted
      the time left. */
  lemma PickSongsSpec(df: seq<Track>, target: real, slack: real, ceiling: real, draws: nat -> nat)
    ensures var r := PickSongsOf(df, target, slack, ceiling, draws);
      && (r.Failure? <==> 0.0 > target || forall t :: t in df ==> t.time > ceiling || t.time > target + slack)
      && (r.Failure? ==> r.error == NoObjectsToConcatenate)
      && (r.Success? ==>
            var songs := r.value.songs;
            && (forall t :: t in songs ==> t in df && t.time <= ceiling)
            && DistinctIds(songs)
            && WithinBudget(songs, 0.0, target + slack)
            && r.value.rest == WithoutIds(df, IdSet(songs))
            && (Sum(songs) > target ||
                forall t :: t in df && t.id !in IdSet(songs) && t.time <= ceiling ==>
                              t.time > target + slack - Sum(songs)))
  {
    var pool := AtMost(df, ceiling);
    var run := Greedy(pool, df, 0.0, target, slack, draws, 0);
    AtMostMembers(df, ceiling);
    NextFits(pool, 0.0, target, slack, draws, 0);
    var n := Next(pool, 0.0, target, slack, draws, 0);
    if n.None? {
      GreedyDone(pool, df, 0.0, target, slack, draws, 0);
    } else {
      var song, used' := n.value, 0.0 + n.value.time;
      GreedyStep(pool, df, 0.0, target, slack, draws, 0, song, used');
    }
    GreedyPicksFromPool(pool, df, 0.0, target, slack, draws, 0);
    GreedyPicksDistinct(pool, df, 0.0, target, slack, draws, 0);
    GreedyWithinBudget(pool, df, 0.0, target, slack, draws, 0);
    GreedyRest(pool, df, 0.0, target, slack, draws, 0);
    GreedyStops(pool, df, 0.0, target, slack, draws, 0);
    GreedyUsed(pool, df, 0.0, target, slack, draws, 0);
    WithoutIdsMembers(pool, IdSet(run.picks));
  }

  /** The rows of the saved-tracks page at index `i` available in the default
      market. */
  function PageRows(a: Account, i: nat): seq<Track>
  {
    Qualifying(Unwrap(SavedPage(a, PageSize, i * PageSize)), DefaultMarket)
  }

  /** What `parse_saved_tracks` makes of every non-empty page, in page order. */
  function SavedPages(a: Account): (pages: seq<Result<seq<Track>>>)
    ensures |pages| == PageCount(|a.saved|)
    ensures forall i :: 0 <= i < |pages| ==> pages[i] == ConcatRows(PageRows(a, i))
  {
    seq(PageCount(|a.saved|), i requires 0 <= i < PageCount(|a.saved|) => ConcatRows(PageRows(a, i)))
  }

  /** get_saved_tracks: read the library 50 items at a time until an empty page,
      parse each page (which raises on a page without a track available in the
      default market) and concatenate the pages. */
  method GetSavedTracks(readSp: Session) returns (r: Result<seq<Track>>)
    ensures r == ConcatAll(SavedPages(readSp.account))
  {
    ghost var pages := SavedPages(readSp.account);
    var i: nat := 0;
    var dflist: seq<seq<Track>> := [];
    while true
      invariant i <= |pages| && |dflist| == i
      invariant forall j :: 0 <= j < i ==> pages[j] == Success(dflist[j])
      decreases |pages| - i
    {
      var data := SavedPage(readSp.account, PageSize, i * PageSize);
      PageNonEmpty(readSp.account, i);
      if |data| == 0 {
        break;
      }
      var df := ParseSavedTracks(data, DefaultMarket);
      if df.Failure? {
        GatheredFailure(pages, i);
        return Failure(df.error);
      }
      dflist := dflist + [df.value];
      i := i + 1;
    }
    GatheredSuccess(pages);
    assert Gathered(pages).value == dflist;
    if dflist == [] {
      r := Failure(NoObjectsToConcatenate);
    } else {
      r := Success(Flatten(dflist));
    }
  }

  /** The pages below index `n`, concatenated, are the rows of the first
      `n * PageSize` items of the library. */
  lemma {:induction false} PagesFlatten(a: Account, n: nat)
    ensures Flatten(seq(n, j requires 0 <= j < n => PageRows(a, j)))
         == Qualifying(Unwrap(a.saved[..Min(n * PageSize, |a.saved|)]), DefaultMarket)
  {
    var s := seq(n, j requires 0 <= j < n => PageRows(a, j));
    if n == 0 {
      assert Unwrap(a.saved[..0]) == [];
    } else {
      var m := n - 1;
      PagesFlatten(a, m);
      assert s[..m] == seq(m, j requires 0 <= j < m => PageRows(a, j));
      var lo, hi := Min(m * PageSize, |a.saved|), Min(n * PageSize, |a.saved|);
      var front, page := a.saved[..lo], a.saved[lo..hi];
      assert a.saved[..hi] == front + page;
      assert SavedPage(a, PageSize, m * PageSize) == page;
      UnwrapConcat(front, page);
      QualifyingConcat(Unwrap(front), Unwrap(page), DefaultMarket);
      assert Flatten(s) == Flatten(s[..m]) + PageRows(a, m);
    }
  }

  /** `get_saved_tracks` succeeds exactly when the library is non-empty and every
      page of 50 holds a track available in the default market; it then returns
      every such track of the library, in library order, one row per item. */
  lemma SavedTracksSpec(a: Account)
    ensures var r := ConcatAll(SavedPages(a));
      && (r.Success? <==>
            (a.saved != [] && forall i :: 0 <= i < PageCount(|a.saved|) ==> PageRows(a, i) != []))
      && (r.Success? ==> r.value == Qualifying(Unwrap(a.saved), DefaultMarket))
  {
    var pages := SavedPages(a);
    var n := PageCount(|a.saved|);
    ConcatAllSuccess(pages);
    if ConcatAll(pages).Success? {
      assert seq(|pages|, j requires 0 <= j < |pages| => pages[j].value)
          == seq(n, j requires 0 <= j < n => PageRows(a, j));
      PagesFlatten(a, n);
      assert Min(n * PageSize, |a.saved|) == |a.saved|;
      assert a.saved[..|a.saved|] == a.saved;
    }
  }

  /** The rows `parse_album` keeps of each album, concatenated in album order. */
  function AlbumRows(albums: seq<Album>): seq<Track>
  {
    Flatten(seq(|albums|, j requires 0 <= j < |albums| => Qualifying(albums[j].tracks, DefaultMarket)))
  }

  /** get_artist_data on the account: the artist's albums, fetched together, each
      parsed (an album without a qualifying track gives an empty table) and
      concatenated; no album at all raises. */
  function ArtistDataOf(a: Account, artist: string): Result<seq<Track>>
  {
    match ArtistAlbums(a, artist)
    case Failure(e) => Failure(e)
    case Success(ids) =>
      match Albums(a, ids)
      case Failure(e) => Failure(e)
      case Success(albums) =>
        if albums == [] then Failure(NoObjectsToConcatenate) else Success(AlbumRows(albums))
  }

  /** get_artist_data. */
  method GetArtistData(sp: Session, artistId: string) returns (r: Result<seq<Track>>)
    ensures r == ArtistDataOf(sp.account, artistId)
  {
    var artistAlbums := ArtistAlbums(sp.account, artistId);
    if artistAlbums.Failure? {
      return Failure(artistAlbums.error);
    }
    var albumIds := artistAlbums.value;
    var albumJsons := Albums(sp.account, albumIds);
    if albumJsons.Failure? {
      return Failure(albumJsons.error);
    }
    var albums := albumJsons.value;
    var songdf: seq<seq<Track>> := [];
    for j := 0 to |albums|
      invariant |songdf| == j
      invariant forall i :: 0 <= i < j ==> songdf[i] == Qualifying(albums[i].tracks, DefaultMarket)
    {
      var songs := ParseAlbum(albums[j], DefaultMarket);
      songdf := songdf + [songs];
    }
    assert songdf == seq(|albums|, j requires 0 <= j < |albums| => Qualifying(albums[j].tracks, DefaultMarket));
    if songdf == [] {
      r := Failure(NoObjectsToConcatenate);
    } else {
      r := Success(Flatten(songdf));
    }
  }

  /** `get_artist_data` succeeds exactly when the service knows the artist, the
      artist has albums and the service knows every one of them; its rows are the
      rows each album's parse keeps. */
  lemma ArtistDataSpec(a: Account, artist: string)
    ensures var r := ArtistDataOf(a, artist);
      && (r.Success? <==> artist in a.artistAlbums && a.artistAlbums[artist] != [] &&
                          forall id :: id in a.artistAlbums[artist] ==> id in a.albums)
      && (r.Success? ==>
            var ids := a.artistAlbums[artist];
            forall t :: t in r.value <==>
              exists j :: 0 <= j < |ids| && t in Qualifying(a.albums[ids[j]].tracks, DefaultMarket))
  {
    if ArtistDataOf(a, artist).Success? {
      var ids := a.artistAlbums[artist];
      var albums := Albums(a, ids).value;
      var parts := seq(|albums|, j requires 0 <= j < |albums| => Qualifying(albums[j].tracks, DefaultMarket));
      FlattenMembers(parts);
      forall t
        ensures t in Flatten(parts) <==>
                  exists j :: 0 <= j < |ids| && t in Qualifying(a.albums[ids[j]].tracks, DefaultMarket)
      {
        if t in Flatten(parts) {
          var j :| 0 <= j < |parts| && t in parts[j];
          assert albums[j] == a.albums[ids[j]];
        }
        if exists j :: 0 <= j < |ids| && t in Qualifying(a.albums[ids[j]].tracks, DefaultMarket) {
          var j :| 0 <= j < |ids| && t in Qualifying(a.albums[ids[j]].tracks, DefaultMarket);
          assert t in parts[j];
        }
      }
    }
  }

  /** The table one matching playlist contributes: its payload parsed by
      `parse_playlist`, which raises when no track of it is available in the
      default market. */
  function PlaylistPart(a: Account, id: string): Result<seq<Track>>
  {
    match UserPlaylist(a, id)
    case Failure(e) => Failure(e)
    case Success(p) => ConcatRows(Qualifying(Unwrap(p.tracks), DefaultMarket))
  }

  function PlaylistParts(a: Account, ids: seq<string>): seq<Result<seq<Track>>>
  {
    seq(|ids|, j requires 0 <= j < |ids| => PlaylistPart(a, ids[j]))
  }

  function ArtistParts(a: Account, artists: seq<string>): seq<Result<seq<Track>>>
  {
    seq(|artists|, j requires 0 <= j < |artists| => ArtistDataOf(a, artists[j]))
  }

  /** `data.drop_duplicates(inplace=True)` after a concatenation that may have raised. */
  function Deduped(r: Result<seq<Track>>): Result<seq<Track>>
  {
    match r
    case Failure(e) => Failure(e)
    case Success(v) => Success(Dedup(v))
  }

  /** get_new_data on the account: saved tracks as they come; the named playlists'
      tables or the artists' tables concatenated and deduplicated; any other source
      type leaves `data` unbound. */
  function NewDataOf(a: Account, sourcetype: string, sourcelist: seq<string>): Result<seq<Track>>
  {
    if sourcetype == "savedtracks" then ConcatAll(SavedPages(a))
    else if sourcetype == "playlist" then
      match GetPlaylists(a)
      case Failure(e) => Failure(e)
      case Success(playlistDf) => Deduped(ConcatAll(PlaylistParts(a, MatchingIds(playlistDf, sourcelist))))
    else if sourcetype == "artist" then Deduped(ConcatAll(ArtistParts(a, sourcelist)))
    else Failure(UnboundLocal("data"))
  }

  /** get_new_data. The user id selects nothing (one account per session) and the
      `market` argument is never read, so neither is a parameter. */
  method GetNewData(sp: Session, sourcetype: string, sourcelist: seq<string>) returns (r: Result<seq<Track>>)
    ensures r == NewDataOf(sp.account, sourcetype, sourcelist)
  {
    if sourcetype == "savedtracks" {
      r := GetSavedTracks(sp);
    } else if sourcetype == "playlist" {
      var playlistDf := GetPlaylists(sp.account);
      if playlistDf.Failure? {
        return Failure(playlistDf.error);
      }
      var subpdf := MatchingIds(playlistDf.value, sourcelist);
      ghost var parts := PlaylistParts(sp.account, subpdf);
      var dflist: seq<seq<Track>> := [];
      for j := 0 to |subpdf|
        invariant |dflist| == j
        invariant forall i :: 0 <= i < j ==> parts[i] == Success(dflist[i])
      {
        var plJson := UserPlaylist(sp.account, subpdf[j]);
        if plJson.Failure? {
          GatheredFailure(parts, j);
          return Failure(plJson.error);
        }
        var plDf := ParsePlaylist(plJson.value, DefaultMarket);
        if plDf.Failure? {
          GatheredFailure(parts, j);
          return Failure(plDf.error);
        }
        dflist := dflist + [plDf.value];
      }
      GatheredSuccess(parts);
      assert Gathered(parts).value == dflist;
      if dflist == [] {
        r := Failure(NoObjectsToConcatenate);
      } else {
        r := Success(Dedup(Flatten(dflist)));
      }
    } else if sourcetype == "artist" {
      ghost var parts := ArtistParts(sp.account, sourcelist);
      var dflist: seq<seq<Track>> := [];
      for j := 0 to |sourcelist|
        invariant |dflist| == j
        invariant forall i :: 0 <= i < j ==> parts[i] == Success(dflist[i])
      {
        var artistSongs := GetArtistData(sp, sourcelist[j]);
        if artistSongs.Failure? {
          GatheredFailure(parts, j);
          return Failure(artistSongs.error);
        }
        dflist := dflist + [artistSongs.value];
      }
      GatheredSuccess(parts);
      assert Gathered(parts).value == dflist;
      if dflist == [] {
        r := Failure(NoObjectsToConcatenate);
      } else {
        r := Success(Dedup(Flatten(dflist)));
      }
    } else {
      r := Failure(UnboundLocal("data"));
    }
  }

  /** Concatenating the parts and dropping duplicates keeps each row of every part
      once, and nothing else. */
  lemma DedupedParts(parts: seq<Result<seq<Track>>>)
    ensures var r := Deduped(ConcatAll(parts));
      r.Success? ==>
        && NoDuplicates(r.value)
        && forall t :: t in r.value <==> exists j :: 0 <= j < |parts| && parts[j].Success? && t in parts[j].value
  {
    ConcatAllSuccess(parts);
    if ConcatAll(parts).Success? {
      var vs := seq(|parts|, j requires 0 <= j < |parts| => parts[j].value);
      FlattenMembers(vs);
      DedupKeepsFirstOccurrences(Flatten(vs));
      forall t
        ensures t in Flatten(vs) <==> exists j :: 0 <= j < |parts| && parts[j].Success? && t in parts[j].value
      {
        if t in Flatten(vs) {
          var j :| 0 <= j < |vs| && t in vs[j];
          assert parts[j].Success? && t in parts[j].value;
        }
        if exists j :: 0 <= j < |parts| && parts[j].Success? && t in parts[j].value {
          var j :| 0 <= j < |parts| && parts[j].Success? && t in parts[j].value;
          assert t in vs[j];
        }
      }
    }
  }

  /** What `get_new_data` promises for each source type: an unknown one raises
      `UnboundLocalError`; a playlist source raises when no listed playlist has one
      of the names; otherwise a playlist or artist source gives each row of the
      named playlists' (or artists') tables once. */
  lemma NewDataSpec(a: Account, sourcetype: string, sourcelist: seq<string>)
    ensures sourcetype != "savedtracks" && sourcetype != "playlist" && sourcetype != "artist" ==>
              NewDataOf(a, sourcetype, sourcelist) == Failure(UnboundLocal("data"))
    ensures sourcetype == "savedtracks" ==> NewDataOf(a, sourcetype, sourcelist) == ConcatAll(SavedPages(a))
    ensures sourcetype == "playlist" && a.playlists != [] && MatchingIds(Listing(a), sourcelist) == [] ==>
              NewDataOf(a, sourcetype, sourcelist) == Failure(NoObjectsToConcatenate)
    ensures sourcetype == "playlist" && NewDataOf(a, sourcetype, sourcelist).Success? ==>
              var r := NewDataOf(a, sourcetype, sourcelist).value;
              var parts := PlaylistParts(a, MatchingIds(Listing(a), sourcelist));
              && NoDuplicates(r)
              && forall t :: t in r <==> exists j :: 0 <= j < |parts| && parts[j].Success? && t in parts[j].value
    ensures sourcetype == "artist" && NewDataOf(a, sourcetype, sourcelist).Success? ==>
              var r := NewDataOf(a, sourcetype, sourcelist).value;
              var parts := ArtistParts(a, sourcelist);
              && NoDuplicates(r)
              && forall t :: t in r <==> exists j :: 0 <= j < |parts| && parts[j].Success? && t in parts[j].value
  {
    if sourcetype == "playlist" && a.playlists != [] {
      DedupedParts(PlaylistParts(a, MatchingIds(Listing(a), sourcelist)));
    } else if sourcetype == "artist" {
      DedupedParts(ArtistParts(a, sourcelist));
    }
  }

  /** make_playlist as written: `playlist_df == None` on a DataFrame is a DataFrame,
      whose truth value raises `ValueError`, so a listing passed by the caller
      always fails before anything is touched. Without one it publishes. */
  method MakePlaylistAsWritten(sp: Session, playlistName: string, songdf: seq<Track>,
                               playlistDf: Option<seq<PlaylistRef>>, newId: string) returns (o: Outcome)
    requires newId !in sp.account.contents
    modifies sp
    ensures playlistDf.Some? ==> o == Fail(AmbiguousTruthValue) && sp.account == old(sp.account)
    ensures playlistDf.None? ==>
              Published(o, sp.account) == Publish(old(sp.account), playlistName, Ids(songdf), None, newId)
  {
    if playlistDf.Some? {
      return Fail(AmbiguousTruthValue);
    }
    o := PublishPlaylist(sp, playlistName, songdf, None, newId);
  }

  /** The listing a caller passes to make_playlist is meant to be used: with a
      listing naming the playlist, the intended call replaces its tracks, where the
      code as written raises. */
  lemma GivenListingIsUsable()
    ensures var a := Account([], [RemotePlaylist("focus", "p1", false)], map["p1" := []], map[], map[], map[]);
      Publish(a, "focus", ["t1"], Some([PlaylistRef("focus", "p1")]), "p2")
        == Published(Pass, a.(contents := map["p1" := ["t1"]]))
  {
    var l := [PlaylistRef("focus", "p1")];
    assert NameIndex(l, "focus") == 0;
  }
}
