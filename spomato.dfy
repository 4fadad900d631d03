/** spomato/spomato.py: the `Spomato` client object. It keeps the credentials, the
    token `spotify_token.start_session` handed out and the spotipy session; its
    methods read or change the account behind that session. */
module Client {
  import opened Tables
  import opened Parsers
  import opened Catalog
  import opened Selector
  import opened Publisher
  import Data

  /** What `spotify_token.start_session(username, password)` returns: the access
      token and its expiration date. */
  datatype Grant = Grant(accessToken: string, expiration: int)

  /** One entry of the `source` dict, in key order: the source type and its value
      (the playlist or artist names; unused for `savedtracks`). */
  datatype Source = Source(kind: string, names: seq<string>)

  /** `_get_saved_tracks` on the account: the library's tracks available in the
      default market, each row once, in library order; an empty library leaves
      nothing to concatenate. */
  function SavedTracksOf(a: Account): Result<seq<Track>>
  {
    if a.saved == [] then Failure(NoObjectsToConcatenate)
    else Success(Dedup(Qualifying(Unwrap(a.saved), DefaultMarket)))
  }

  /** The saved-tracks table holds every library track available in the default
      market once, and nothing else. */
  lemma SavedTracksOfSpec(a: Account)
    ensures SavedTracksOf(a).Failure? <==> a.saved == []
    ensures SavedTracksOf(a).Success? ==>
              var v := SavedTracksOf(a).value;
              && NoDuplicates(v)
              && forall t :: t in v <==>
                   exists item :: item in a.saved && DefaultMarket in item.track.availableMarkets &&
                                  t == Row(item.track)
  {
    if a.saved != [] {
      var records := Unwrap(a.saved);
      DedupKeepsFirstOccurrences(Qualifying(records, DefaultMarket));
      QualifyingExactly(records, DefaultMarket);
      assert forall r :: r in records <==> exists item :: item in a.saved && r == item.track by {
        forall r | r in records ensures exists item :: item in a.saved && r == item.track {
          var i :| 0 <= i < |records| && records[i] == r;
          assert a.saved[i] in a.saved;
        }
        forall item | item in a.saved ensures item.track in records {
          var i :| 0 <= i < |a.saved| && a.saved[i] == item;
          assert records[i] == item.track;
        }
      }
    }
  }

  /** The table one matching playlist contributes: `_parse_playlist` gives an empty
      table when none of its tracks is available, so only the service can fail. */
  function PlaylistPart(a: Account, id: string): Result<seq<Track>>
  {
    match UserPlaylist(a, id)
    case Failure(e) => Failure(e)
    case Success(p) => Success(Qualifying(Unwrap(p.tracks), DefaultMarket))
  }

  function PlaylistParts(a: Account, ids: seq<string>): seq<Result<seq<Track>>>
  {
    seq(|ids|, j requires 0 <= j < |ids| => PlaylistPart(a, ids[j]))
  }

  /** The `playlist` branch: the listed playlists whose name is asked for, parsed,
      concatenated and deduplicated. */
  function PlaylistData(a: Account, names: seq<string>): Result<seq<Track>>
  {
    match GetPlaylists(a)
    case Failure(e) => Failure(e)
    case Success(playlistDf) => Data.Deduped(ConcatAll(PlaylistParts(a, MatchingIds(playlistDf, names))))
  }

  /** The `artist` branch for the artists `names`: their tables concatenated and
      deduplicated. */
  function ArtistData(a: Account, names: seq<string>): Result<seq<Track>>
  {
    Data.Deduped(ConcatAll(Data.ArtistParts(a, names)))
  }

  /** The source types `_get_new_data` acts on; it skips every other key. */
  predicate Recognised(kind: string)
  {
    kind == "savedtracks" || kind == "playlist" || kind == "artist"
  }

  /** The table a recognised source gives, each branch reading its own entry. */
  function SourceData(a: Account, src: Source): Result<seq<Track>>
    requires Recognised(src.kind)
  {
    if src.kind == "savedtracks" then SavedTracksOf(a)
    else if src.kind == "playlist" then PlaylistData(a, src.names)
    else ArtistData(a, src.names)
  }

  /** The tables of the recognised sources, in key order. */
  function SourceParts(a: Account, sources: seq<Source>): (parts: seq<Result<seq<Track>>>)
    ensures |parts| <= |sources|
  {
    if sources == [] then []
    else
      var last := sources[|sources| - 1];
      SourceParts(a, sources[..|sources| - 1]) + (if Recognised(last.kind) then [SourceData(a, last)] else [])
  }

  /** `_get_new_data` as intended: every recognised source's table, concatenated in
      key order, the first exception stopping the loop. There is no deduplication
      across sources: a track two sources hold appears once per source. */
  function NewDataOf(a: Account, sources: seq<Source>): Result<seq<Track>>
  {
    ConcatAll(SourceParts(a, sources))
  }

  /** `_get_new_data` as written, from source `sources[0]` on, in the state the
      earlier keys left: `sourcelist` is bound only by a `playlist` key, the artist
      branch reads it, and each branch overwrites `data`, the only thing returned. */
  function NewDataAsWrittenOf(a: Account, sources: seq<Source>, sourcelist: Option<seq<string>>,
                              data: Option<seq<Track>>): Result<seq<Track>>
    decreases |sources|
  {
    if sources == [] then
      (if data.None? then Failure(UnboundLocal("data")) else Success(data.value))
    else
      var src := sources[0];
      if src.kind == "savedtracks" then
        match SavedTracksOf(a)
        case Failure(e) => Failure(e)
        case Success(d) => NewDataAsWrittenOf(a, sources[1..], sourcelist, Some(d))
      else if src.kind == "playlist" then
        match PlaylistData(a, src.names)
        case Failure(e) => Failure(e)
        case Success(d) => NewDataAsWrittenOf(a, sources[1..], Some(src.names), Some(d))
      else if src.kind == "artist" then
        if sourcelist.None? then Failure(UnboundLocal("sourcelist"))
        else
          match ArtistData(a, sourcelist.value)
          case Failure(e) => Failure(e)
          case Success(d) => NewDataAsWrittenOf(a, sources[1..], sourcelist, Some(d))
      else NewDataAsWrittenOf(a, sources[1..], sourcelist, data)
  }

  /** The sources split anywhere give the parts of each side, in order. */
  lemma {:induction false} SourcePartsSplit(a: Account, sources: seq<Source>, i: nat)
    requires i <= |sources|
    ensures SourceParts(a, sources) == SourceParts(a, sources[..i]) + SourceParts(a, sources[i..])
    decreases |sources|
  {
    if i == |sources| {
      assert sources[..i] == sources;
      assert sources[i..] == [];
    } else {
      var init := sources[..|sources| - 1];
      SourcePartsSplit(a, init, i);
      assert init[..i] == sources[..i];
      assert sources[i..][..|sources[i..]| - 1] == init[i..];
    }
  }

  /** `pick_tracks` as intended, with `time*60`, `extra*60` and the ceiling worked
      out: the narrowing loop from the ceiling-filtered table; nothing picked leaves
      nothing to concatenate. */
  function PickTracksOf(df: seq<Track>, target: real, slack: real, ceiling: real,
                        draws: nat -> nat): Result<seq<Track>>
  {
    var picks := GreedyNarrowing(AtMost(df, ceiling), 0.0, target, slack, draws, 0);
    if picks == [] then Failure(NoObjectsToConcatenate) else Success(picks)
  }

  /** On a table of non-negative durations the intended `pick_tracks` draws exactly
      what `pick_songs` in spomato/data.py draws from the same stream, and fails
      exactly when it does. */
  lemma PickTracksAgrees(df: seq<Track>, target: real, slack: real, ceiling: real, draws: nat -> nat)
    requires forall t :: t in df ==> t.time >= 0.0
    ensures PickTracksOf(df, target, slack, ceiling, draws).Failure? <==>
              Data.PickSongsOf(df, target, slack, ceiling, draws).Failure?
    ensures PickTracksOf(df, target, slack, ceiling, draws).Success? ==>
              PickTracksOf(df, target, slack, ceiling, draws).value ==
                Data.PickSongsOf(df, target, slack, ceiling, draws).value.songs
  {
    TwinsAgree(df, target, slack, ceiling, draws);
  }

  /** What `pick_tracks` promises of its picks, for any durations: rows of the table
      under the ceiling, distinct ids, every running total within `target + slack`,
      and a failure exactly when no row fits at all. */
  lemma PickTracksSpec(df: seq<Track>, target: real, slack: real, ceiling: real, draws: nat -> nat)
    ensures var r := PickTracksOf(df, target, slack, ceiling, draws);
      && (r.Failure? <==> 0.0 > target || forall t :: t in df ==> t.time > ceiling || t.time > target + slack)
      && (r.Failure? ==> r.error == NoObjectsToConcatenate)
      && (r.Success? ==>
            && (forall t :: t in r.value ==> t in df && t.time <= ceiling)
            && DistinctIds(r.value)
            && WithinBudget(r.value, 0.0, target + slack))
  {
    var pool := AtMost(df, ceiling);
    AtMostMembers(df, ceiling);
    NextFits(pool, 0.0, target, slack, draws, 0);
    var n := Next(pool, 0.0, target, slack, draws, 0);
    if n.None? {
      NarrowingDone(pool, 0.0, target, slack, draws, 0);
    } else {
      NarrowingStep(pool, 0.0, target, slack, draws, 0, n.value, 0.0 + n.value.time, target + slack - 0.0);
    }
    NarrowingWithinBudget(pool, 0.0, target, slack, draws, 0);
  }

  /** A single one-minute track fits a 25-minute target under any draw stream: the
      intended loop picks it. */
  lemma OneTrackIsPicked(draws: nat -> nat)
    ensures PickTracksOf([Track("a", 60.0)], 1500.0, 300.0, 500.0, draws) == Success([Track("a", 60.0)])
  {
    var df := [Track("a", 60.0)];
    assert AtMost(df, 500.0) == df;
    assert AtMost(df, 1800.0) == df;
    assert Next(df, 0.0, 1500.0, 300.0, draws, 0) == Some(Track("a", 60.0));
    NarrowingStep(df, 0.0, 1500.0, 300.0, draws, 0, Track("a", 60.0), 60.0, 1800.0);
    assert WithoutId(df, "a") == [];
    assert Next([], 60.0, 1500.0, 300.0, draws, 1) == None;
  }

  /** The loop invariant of `pick_tracks`: the picks so far followed by the run from
      the current state are the run from the start. */
  ghost predicate Resumes(start: seq<Track>, trackList: seq<Track>, trackDf: seq<Track>, timeUsed: real,
                          target: real, slack: real, draws: nat -> nat, k: nat)
  {
    start == trackList + GreedyNarrowing(trackDf, timeUsed, target, slack, draws, k)
  }

  /** A drawn row keeps the invariant. */
  lemma ResumesStep(start: seq<Track>, trackList: seq<Track>, trackDf: seq<Track>, timeUsed: real,
                    target: real, slack: real, draws: nat -> nat, k: nat, track: Track, used': real,
                    room: real)
    requires Resumes(start, trackList, trackDf, timeUsed, target, slack, draws, k)
    requires Next(trackDf, timeUsed, target, slack, draws, k) == Some(track)
    requires used' == timeUsed + track.time && room == target + slack - timeUsed
    ensures Resumes(start, trackList + [track], WithoutId(AtMost(trackDf, room), track.id), used',
                    target, slack, draws, k + 1)
    ensures |WithoutId(AtMost(trackDf, room), track.id)| < |trackDf|
  {
    NextNarrowed(trackDf, room, timeUsed, target, slack, draws, k);
    NextFits(AtMost(trackDf, room), timeUsed, target, slack, draws, k);
    AtMostMembers(trackDf, room);
    NarrowingStep(trackDf, timeUsed, target, slack, draws, k, track, used', room);
    var next := GreedyNarrowing(WithoutId(AtMost(trackDf, room), track.id), used', target, slack, draws, k + 1);
    assert trackList + ([track] + next) == (trackList + [track]) + next;
  }

  /** The loop invariant of `_get_new_data`: the tables collected so far are the
      tables of the recognised sources among the first `i`, none of which raised. */
  ghost predicate Collected(a: Account, sources: seq<Source>, i: nat, dataList: seq<seq<Track>>)
    requires i <= |sources|
  {
    var done := SourceParts(a, sources[..i]);
    |dataList| == |done| && forall j :: 0 <= j < |done| ==> done[j] == Success(dataList[j])
  }

  /** One more source adds its table when its type is recognised. */
  lemma CollectStep(a: Account, sources: seq<Source>, i: nat)
    requires i < |sources|
    ensures SourceParts(a, sources[..i + 1]) ==
              SourceParts(a, sources[..i]) +
                (if Recognised(sources[i].kind) then [SourceData(a, sources[i])] else [])
  {
    assert sources[..i + 1][..i] == sources[..i];
  }

  /** A source that raises, after sources that did not, decides the outcome. */
  lemma CollectFailure(a: Account, sources: seq<Source>, i: nat, dataList: seq<seq<Track>>)
    requires i < |sources| && Recognised(sources[i].kind) && SourceData(a, sources[i]).Failure?
    requires Collected(a, sources, i, dataList)
    ensures NewDataOf(a, sources) == Failure(SourceData(a, sources[i]).error)
  {
    var done := SourceParts(a, sources[..i]);
    CollectStep(a, sources, i);
    SourcePartsSplit(a, sources, i + 1);
    var all := SourceParts(a, sources);
    assert all == done + [SourceData(a, sources[i])] + SourceParts(a, sources[i + 1..]);
    assert all[|done|] == SourceData(a, sources[i]);
    GatheredFailure(all, |done|);
  }

  class Spomato {
    var username: Option<string>
    var password: Option<string>
    var accessToken: Option<string>
    var tokenExpirationDate: Option<int>
    var tokenRefreshAlways: bool
    var tokenRefreshTime: int
    var spotipySession: Session

    /** `__init__`: the token is fetched only when both credentials are given; the
        session then acts on `account`. */
    constructor (username: Option<string>, password: Option<string>, tokenRefreshAlways: bool,
                 tokenRefreshTime: int, grant: Grant, account: Account)
      ensures this.username == username && this.password == password
      ensures this.tokenRefreshAlways == tokenRefreshAlways && this.tokenRefreshTime == tokenRefreshTime
      ensures username.Some? && password.Some? ==>
                accessToken == Some(grant.accessToken) && tokenExpirationDate == Some(grant.expiration)
      ensures username.None? || password.None? ==> accessToken == None && tokenExpirationDate == None
      ensures fresh(spotipySession) && spotipySession.account == account
    {
      this.username := username;
      this.password := password;
      accessToken := None;
      tokenExpirationDate := None;
      this.tokenRefreshAlways := tokenRefreshAlways;
      this.tokenRefreshTime := tokenRefreshTime;
      spotipySession := new Session(account);
      new;
      GetSetToken(grant);
    }

    /** `_get_set_token`: with both credentials, store the token and its expiration;
        otherwise change nothing. */
    method GetSetToken(grant: Grant)
      modifies this
      ensures username == old(username) && password == old(password)
      ensures tokenRefreshAlways == old(tokenRefreshAlways) && tokenRefreshTime == old(tokenRefreshTime)
      ensures spotipySession == old(spotipySession)
      ensures if username.Some? && password.Some?
              then accessToken == Some(grant.accessToken) && tokenExpirationDate == Some(grant.expiration)
              else accessToken == old(accessToken) && tokenExpirationDate == old(tokenExpirationDate)
    {
      if username.Some? && password.Some? {
        accessToken := Some(grant.accessToken);
        tokenExpirationDate := Some(grant.expiration);
      }
    }

    /** `_parse_album`: the album's tracks available in `market`, an empty table when
        there is none. */
    method ParseAlbum(data: Album, market: string) returns (df: seq<Track>)
      ensures df == Qualifying(data.tracks, market)
    {
      df := Parsers.ParseAlbum(data, market);
    }

    /** `_parse_playlist`: like parse_playlist in spomato/parsers.py, except that no
        qualifying track gives an empty table instead of raising. */
    method ParsePlaylist(data: Playlist, market: string) returns (df: seq<Track>)
      ensures df == Qualifying(Unwrap(data.tracks), market)
    {
      var r := Parsers.ParsePlaylist(data, market);
      df := if r.Success? then r.value else [];
    }

    /** `_parse_saved_tracks`: like parse_saved_tracks in spomato/parsers.py, except
        that no qualifying track gives an empty table instead of raising. */
    method ParseSavedTracks(data: seq<Item>, market: string) returns (df: seq<Track>)
      ensures df == Qualifying(Unwrap(data), market)
    {
      var r := Parsers.ParseSavedTracks(data, market);
      df := if r.Success? then r.value else [];
    }

    /** `_get_saved_tracks`: pages of 50 until an empty one, each parsed, then
        concatenated and deduplicated. */
    method GetSavedTracks() returns (r: Result<seq<Track>>)
      ensures r == SavedTracksOf(spotipySession.account)
    {
      ghost var a := spotipySession.account;
      ghost var n := PageCount(|a.saved|);
      var i: nat := 0;
      var trackDfList: seq<seq<Track>> := [];
      while true
        invariant i <= n
        invariant trackDfList == seq(i, j requires 0 <= j < i => Data.PageRows(a, j))
        decreases n - i
      {
        var data := SavedPage(spotipySession.account, PageSize, i * PageSize);
        PageNonEmpty(a, i);
        if |data| == 0 {
          break;
        }
        var trackDf := ParseSavedTracks(data, DefaultMarket);
        trackDfList := trackDfList + [trackDf];
        i := i + 1;
      }
      Data.PagesFlatten(a, i);
      assert Min(i * PageSize, |a.saved|) == |a.saved|;
      assert a.saved[..|a.saved|] == a.saved;
      if trackDfList == [] {
        r := Failure(NoObjectsToConcatenate);
      } else {
        r := Success(Dedup(Flatten(trackDfList)));
      }
    }

    /** `pick_tracks`, with the emptiness test it evidently means (`len(track_df) ==
        0`): `time` and `extra` in minutes, `time_limit` in seconds (None for a third
        of the target); the table is narrowed to the time left before every test. */
    method PickTracks(trackDf: seq<Track>, time: real, extra: real, timeLimit: Option<real>,
                      draws: nat -> nat) returns (r: Result<seq<Track>>)
      ensures r == PickTracksOf(trackDf, time * 60.0, extra * 60.0, Ceiling(time, timeLimit), draws)
    {
      var target := time * 60.0;
      var slack := extra * 60.0;
      var limit := if timeLimit.None? then target / 3.0 else timeLimit.value;
      assert limit == Ceiling(time, timeLimit);
      var trackList := DrawTracks(AtMost(trackDf, limit), target, slack, draws);
      if trackList == [] {
        r := Failure(NoObjectsToConcatenate);
      } else {
        r := Success(trackList);
      }
    }

    /** The `while not done` loop of `pick_tracks`, from the ceiling-filtered table:
        before every test the table is narrowed to the rows that fit the time left. */
    method DrawTracks(trackDf: seq<Track>, target: real, slack: real, draws: nat -> nat)
      returns (trackList: seq<Track>)
      ensures trackList == GreedyNarrowing(trackDf, 0.0, target, slack, draws, 0)
    {
      var df := trackDf;
      var timeUsed := 0.0;
      trackList := [];
      var k: nat := 0;
      ghost var start := GreedyNarrowing(df, 0.0, target, slack, draws, 0);
      assert [] + start == start;
      while true
        invariant Resumes(start, trackList, df, timeUsed, target, slack, draws, k)
        decreases |df|
      {
        var room := target + slack - timeUsed;
        var narrowed := AtMost(df, room);
        if timeUsed > target || |narrowed| == 0 {
          NarrowingDone(df, timeUsed, target, slack, draws, k);
          break;
        }
        var track := narrowed[Draw(draws, k, |narrowed|)];
        assert Next(df, timeUsed, target, slack, draws, k) == Some(track);
        var used' := timeUsed + track.time;
        ResumesStep(start, trackList, df, timeUsed, target, slack, draws, k, track, used', room);
        df := WithoutId(narrowed, track.id);
        trackList := trackList + [track];
        timeUsed := used';
        k := k + 1;
      }
      assert trackList + [] == trackList;
    }

    /** `pick_tracks` as written: `len(track_df)` is an int, which has no `isempty`,
        so unless the target is already passed the first test raises, and otherwise
        nothing was picked to concatenate. It never returns picks. */
    method PickTracksAsWritten(trackDf: seq<Track>, time: real, extra: real, timeLimit: Option<real>,
                               draws: nat -> nat) returns (r: Result<seq<Track>>)
      ensures r == Failure(if 0.0 > time * 60.0 then NoObjectsToConcatenate else NoAttributeIsEmpty)
    {
      var target := time * 60.0;
      var slack := extra * 60.0;
      var limit := if timeLimit.None? then target / 3.0 else timeLimit.value;
      var df := AtMost(trackDf, limit);
      var timeUsed := 0.0;
      df := AtMost(df, target + slack - timeUsed);
      if timeUsed > target {
        r := Failure(NoObjectsToConcatenate);
      } else {
        r := Failure(NoAttributeIsEmpty);
      }
    }

    /** `_get_artist_data`: the artist's albums fetched together, each parsed by
        `_parse_album`, concatenated. */
    method GetArtistData(artistId: string) returns (r: Result<seq<Track>>)
      ensures r == Data.ArtistDataOf(spotipySession.account, artistId)
    {
      r := Data.GetArtistData(spotipySession, artistId);
    }

    /** The `playlist` branch of `_get_new_data`. */
    method PlaylistTracks(sourcelist: seq<string>) returns (r: Result<seq<Track>>)
      ensures r == PlaylistData(spotipySession.account, sourcelist)
    {
      var playlistDf := GetPlaylists(spotipySession.account);
      if playlistDf.Failure? {
        return Failure(playlistDf.error);
      }
      var subpdf := MatchingIds(playlistDf.value, sourcelist);
      ghost var parts := PlaylistParts(spotipySession.account, subpdf);
      var playlistList: seq<seq<Track>> := [];
      for j := 0 to |subpdf|
        invariant |playlistList| == j
        invariant forall i :: 0 <= i < j ==> parts[i] == Success(playlistList[i])
      {
        var plJson := UserPlaylist(spotipySession.account, subpdf[j]);
        if plJson.Failure? {
          GatheredFailure(parts, j);
          return Failure(plJson.error);
        }
        var plDf := ParsePlaylist(plJson.value, DefaultMarket);
        playlistList := playlistList + [plDf];
      }
      GatheredSuccess(parts);
      assert Gathered(parts).value == playlistList;
      if playlistList == [] {
        r := Failure(NoObjectsToConcatenate);
      } else {
        r := Success(Dedup(Flatten(playlistList)));
      }
    }

    /** The `artist` branch of `_get_new_data`, for the artists `artists`. */
    method ArtistTracks(artists: seq<string>) returns (r: Result<seq<Track>>)
      ensures r == ArtistData(spotipySession.account, artists)
    {
      ghost var parts := Data.ArtistParts(spotipySession.account, artists);
      var artistList: seq<seq<Track>> := [];
      for j := 0 to |artists|
        invariant |artistList| == j
        invariant forall i :: 0 <= i < j ==> parts[i] == Success(artistList[i])
      {
        var artistSongs := GetArtistData(artists[j]);
        if artistSongs.Failure? {
          GatheredFailure(parts, j);
          return Failure(artistSongs.error);
        }
        artistList := artistList + [artistSongs.value];
      }
      GatheredSuccess(parts);
      assert Gathered(parts).value == artistList;
      if artistList == [] {
        r := Failure(NoObjectsToConcatenate);
      } else {
        r := Success(Dedup(Flatten(artistList)));
      }
    }

    /** `_get_new_data` as intended: every recognised source's table, each branch
        reading its own entry, concatenated in key order. The user id selects nothing
        (one account per session) and `market` is never read. */
    method GetNewData(sources: seq<Source>) returns (r: Result<seq<Track>>)
      ensures r == NewDataOf(spotipySession.account, sources)
    {
      ghost var a := spotipySession.account;
      var dataList: seq<seq<Track>> := [];
      for i := 0 to |sources|
        invariant Collected(a, sources, i, dataList)
      {
        var src := sources[i];
        CollectStep(a, sources, i);
        if Recognised(src.kind) {
          var data := SourceTracks(src);
          if data.Failure? {
            CollectFailure(a, sources, i, dataList);
            return Failure(data.error);
          }
          dataList := dataList + [data.value];
        }
      }
      assert sources[..|sources|] == sources;
      ghost var all := SourceParts(a, sources);
      GatheredSuccess(all);
      assert Gathered(all).value == dataList;
      if dataList == [] {
        r := Failure(NoObjectsToConcatenate);
      } else {
        r := Success(Flatten(dataList));
      }
    }

    /** One branch of `_get_new_data`, chosen by the source type. */
    method SourceTracks(src: Source) returns (r: Result<seq<Track>>)
      requires Recognised(src.kind)
      ensures r == SourceData(spotipySession.account, src)
    {
      if src.kind == "savedtracks" {
        r := GetSavedTracks();
      } else if src.kind == "playlist" {
        r := PlaylistTracks(src.names);
      } else {
        r := ArtistTracks(src.names);
      }
    }

    /** `_get_new_data` as written. */
    method GetNewDataAsWritten(sources: seq<Source>) returns (r: Result<seq<Track>>)
      ensures r == NewDataAsWrittenOf(spotipySession.account, sources, None, None)
    {
      ghost var a := spotipySession.account;
      var sourcelist: Option<seq<string>> := None;
      var data: Option<seq<Track>> := None;
      for i := 0 to |sources|
        invariant NewDataAsWrittenOf(a, sources, None, None) == NewDataAsWrittenOf(a, sources[i..], sourcelist, data)
      {
        var src := sources[i];
        assert sources[i..][1..] == sources[i + 1..];
        if src.kind == "savedtracks" {
          var d := GetSavedTracks();
          if d.Failure? {
            return Failure(d.error);
          }
          data := Some(d.value);
        } else if src.kind == "playlist" {
          sourcelist := Some(src.names);
          var d := PlaylistTracks(src.names);
          if d.Failure? {
            return Failure(d.error);
          }
          data := Some(d.value);
        } else if src.kind == "artist" {
          if sourcelist.None? {
            return Failure(UnboundLocal("sourcelist"));
          }
          var d := ArtistTracks(sourcelist.value);
          if d.Failure? {
            return Failure(d.error);
          }
          data := Some(d.value);
        }
      }
      if data.None? {
        r := Failure(UnboundLocal("data"));
      } else {
        r := Success(data.value);
      }
    }

    /** `make_playlist`: the shared publish decision, with the caller's listing used
        when one is passed (`is None` is the test here). */
    method MakePlaylist(playlistName: string, songdf: seq<Track>, playlistDf: Option<seq<PlaylistRef>>,
                        newId: string) returns (o: Outcome)
      requires newId !in spotipySession.account.contents
      modifies spotipySession
      ensures Published(o, spotipySession.account) ==
                Publish(old(spotipySession.account), playlistName, Ids(songdf), playlistDf, newId)
    {
      o := PublishPlaylist(spotipySession, playlistName, songdf, playlistDf, newId);
    }
  }

  /** What the intended `_get_new_data` gives: no recognised source leaves nothing to
      concatenate; otherwise, when every source succeeds, every row of every source's
      table, in key order. */
  lemma NewDataSpec(a: Account, sources: seq<Source>)
    ensures (forall s :: s in sources ==> !Recognised(s.kind)) ==>
              NewDataOf(a, sources) == Failure(NoObjectsToConcatenate)
    ensures NewDataOf(a, sources).Success? ==>
              var parts := SourceParts(a, sources);
              forall t :: t in NewDataOf(a, sources).value <==>
                exists j :: 0 <= j < |parts| && parts[j].Success? && t in parts[j].value
  {
    UnrecognisedParts(a, sources);
    var parts := SourceParts(a, sources);
    ConcatAllSuccess(parts);
    if ConcatAll(parts).Success? {
      var vs := seq(|parts|, j requires 0 <= j < |parts| => parts[j].value);
      FlattenMembers(vs);
      forall t
        ensures t in Flatten(vs) <==> exists j :: 0 <= j < |parts| && parts[j].Success? && t in parts[j].value
      {
        if t in Flatten(vs) {
          var j :| 0 <= j < |vs| && t in vs[j];
          assert parts[j].Success? && t in parts[j].value;
        }
        if exists j :: 0 <= j < |parts| && parts[j].Success? && t in parts[j].value {
          var j :| 0 <= j < |parts| && parts[j].Success? && t in parts[j].value;
          assert t in vs[j];
        }
      }
    }
  }

  /** Sources of no recognised type contribute no part. */
  lemma {:induction false} UnrecognisedParts(a: Account, sources: seq<Source>)
    ensures (forall s :: s in sources ==> !Recognised(s.kind)) ==> SourceParts(a, sources) == []
  {
    if sources != [] && forall s :: s in sources ==> !Recognised(s.kind) {
      var init := sources[..|sources| - 1];
      assert forall s :: s in init ==> s in sources;
      assert sources[|sources| - 1] in sources;
      UnrecognisedParts(a, init);
    }
  }

  /** Saved tracks then a playlist, both fetched without error: as written only the
      playlist's table comes back, where both tables concatenated are meant. */
  lemma LastSourceWins(a: Account, names: seq<string>, names': seq<string>)
    requires SavedTracksOf(a).Success? && PlaylistData(a, names').Success?
    ensures var sources := [Source("savedtracks", names), Source("playlist", names')];
      && NewDataAsWrittenOf(a, sources, None, None) == PlaylistData(a, names')
      && NewDataOf(a, sources) == Success(SavedTracksOf(a).value + PlaylistData(a, names').value)
  {
    var saved, listed := Source("savedtracks", names), Source("playlist", names');
    var sources := [saved, listed];
    var d, d' := SavedTracksOf(a).value, PlaylistData(a, names').value;
    assert sources[1..] == [listed];
    assert [listed][1..] == [];
    assert NewDataAsWrittenOf(a, [listed], None, Some(d)) == NewDataAsWrittenOf(a, [], Some(names'), Some(d'));
    assert sources[..1] == [saved];
    assert [saved][..0] == [];
    assert SourceParts(a, [saved]) == [SavedTracksOf(a)];
    assert SourceParts(a, sources) == [SavedTracksOf(a), PlaylistData(a, names')];
    ConcatTwo(d, d');
  }

  /** Two tables that were both fetched, concatenated. */
  lemma ConcatTwo(d: seq<Track>, d': seq<Track>)
    ensures ConcatAll([Success(d), Success(d')]) == Success(d + d')
  {
    var first: seq<Result<seq<Track>>> := [Success(d)];
    GatheredSnoc([], Success(d));
    assert [] + first == first;
    GatheredSnoc(first, Success(d'));
    assert first + [Success(d')] == [Success(d), Success(d')];
    var vs := [d, d'];
    assert [] + [d] + [d'] == vs;
    FlattenAppend([], d);
    FlattenAppend([d], d');
    assert [] + [d] == [d] && [d] + [d'] == vs && [] + d == d;
  }

  /** An artist source with no playlist key before it: as written the artist branch
      reads an unbound `sourcelist`, where the artists it names are meant. */
  lemma ArtistAloneIsUnbound(a: Account, names: seq<string>)
    ensures NewDataAsWrittenOf(a, [Source("artist", names)], None, None) == Failure(UnboundLocal("sourcelist"))
    ensures NewDataOf(a, [Source("artist", names)]) == ConcatAll([ArtistData(a, names)])
  {
    var sources := [Source("artist", names)];
    assert sources[..0] == [];
  }

  /** So asking for one artist's catalog gives, as intended, that artist's tracks
      whenever the service knows the artist and all of its albums. */
  lemma ArtistAloneIsFetched(a: Account, artist: string)
    requires artist in a.artistAlbums && a.artistAlbums[artist] != []
    requires forall id :: id in a.artistAlbums[artist] ==> id in a.albums
    ensures NewDataOf(a, [Source("artist", [artist])]).Success?
  {
    ArtistAloneIsUnbound(a, [artist]);
    Data.ArtistDataSpec(a, artist);
    var parts := Data.ArtistParts(a, [artist]);
    assert parts == [Data.ArtistDataOf(a, artist)];
    assert Gathered(parts) == Success([Data.ArtistDataOf(a, artist).value]) by {
      assert parts[..0] == [];
    }
    var one := [ArtistData(a, [artist])];
    assert one[..0] == [];
  }
}
