/** The remote side the program talks to through its spotipy client: the user's
    account as one value, the read calls as functions of it, and the write calls as
    methods of a `Session` that updates it. Userids passed to the service select
    nothing here: each call acts on the one account of the session. */
module Catalog {
  import opened Tables
  import opened Parsers

  /** A playlist of the user's library as the service keeps it. */
  datatype RemotePlaylist = RemotePlaylist(name: string, id: string, public: bool)

  /** A row of `playlist_df`: `playlist_name`, `playlist_id`. */
  datatype PlaylistRef = PlaylistRef(name: string, id: string)

  /** What the service holds for the user. */
  datatype Account = Account(
    saved: seq<Item>,                       // the saved-tracks library, in listing order
    playlists: seq<RemotePlaylist>,         // the user's playlists, in listing order
    contents: map<string, seq<string>>,     // playlist id to its track ids
    records: map<string, Record>,           // track id to its catalog record
    artistAlbums: map<string, seq<string>>, // artist id to its album ids
    albums: map<string, Album>)             // album id to its payload

  /** The page size the saved-tracks pager asks for. */
  const PageSize: nat := 50

  function Min(a: int, b: int): int
  {
    if a <= b then a else b
  }

  /** `current_user_saved_tracks(limit, offset)['items']`: the saved items at
      positions `offset` to `offset + limit - 1`, as many of them as exist. */
  function SavedPage(a: Account, limit: nat, offset: nat): (page: seq<Item>)
    ensures |page| == Min(offset + limit, |a.saved|) - Min(offset, |a.saved|)
    ensures forall j :: 0 <= j < |page| ==> page[j] == a.saved[offset + j]
  {
    a.saved[Min(offset, |a.saved|)..Min(offset + limit, |a.saved|)]
  }

  /** The number of non-empty pages of `PageSize` items in a library of `n` items. */
  function PageCount(n: nat): nat
  {
    (n + PageSize - 1) / PageSize
  }

  /** The page at index `i` is non-empty exactly when `i` is below the page count. */
  lemma PageNonEmpty(a: Account, i: nat)
    ensures |SavedPage(a, PageSize, i * PageSize)| > 0 <==> i < PageCount(|a.saved|)
  {
  }

  /** One `playlist_df` row per playlist, in listing order. */
  function Listing(a: Account): (l: seq<PlaylistRef>)
    ensures |l| == |a.playlists|
    ensures forall i :: 0 <= i < |l| ==> l[i] == PlaylistRef(a.playlists[i].name, a.playlists[i].id)
  {
    seq(|a.playlists|, i requires 0 <= i < |a.playlists| =>
      PlaylistRef(a.playlists[i].name, a.playlists[i].id))
  }

  /** `get_playlists` / `_get_playlists`: `pd.concat` over one row per playlist, so an
      account without playlists raises. */
  function GetPlaylists(a: Account): (r: Result<seq<PlaylistRef>>)
    ensures r.Failure? <==> a.playlists == []
    ensures r.Failure? ==> r.error == NoObjectsToConcatenate
    ensures r.Success? ==> r.value == Listing(a)
  {
    if a.playlists == [] then Failure(NoObjectsToConcatenate) else Success(Listing(a))
  }

  /** `playlist_df[playlist_df.playlist_name.isin(names)].playlist_id`: the ids of the
      rows whose name is one of `names`, in listing order. */
  function MatchingIds(listing: seq<PlaylistRef>, names: seq<string>): seq<string>
  {
    if listing == [] then []
    else
      var last := listing[|listing| - 1];
      MatchingIds(listing[..|listing| - 1], names) + (if last.name in names then [last.id] else [])
  }

  /** A matching id is the id of a row whose name was asked for, and every such
      row's id is kept. */
  lemma {:induction false} MatchingIdsMembers(listing: seq<PlaylistRef>, names: seq<string>)
    ensures forall id :: id in MatchingIds(listing, names) <==>
              exists p :: p in listing && p.name in names && p.id == id
    ensures |MatchingIds(listing, names)| <= |listing|
  {
    if listing != [] {
      var init := listing[..|listing| - 1];
      MatchingIdsMembers(init, names);
      assert listing == init + [listing[|listing| - 1]];
      assert forall p :: p in listing <==> p in init || p == listing[|listing| - 1];
    }
  }

  /** The items of the tracks the catalog knows, in the order of `ids`. */
  function ItemsOf(records: map<string, Record>, ids: seq<string>): seq<Item>
  {
    if ids == [] then []
    else
      ItemsOf(records, ids[..|ids| - 1]) +
        (if ids[|ids| - 1] in records then [Item(records[ids[|ids| - 1]])] else [])
  }

  /** `user_playlist(user, id)`: the payload of a playlist of the account, listing its
      tracks in order; the service fails on an id it does not know. */
  function UserPlaylist(a: Account, id: string): (r: Result<Playlist>)
    ensures r.Failure? <==> id !in a.contents
  {
    if id in a.contents then Success(Playlist(ItemsOf(a.records, a.contents[id])))
    else Failure(ServiceError)
  }

  /** `artist_albums(artist)['items']`, reduced to the album ids. */
  function ArtistAlbums(a: Account, artist: string): (r: Result<seq<string>>)
    ensures r.Failure? <==> artist !in a.artistAlbums
  {
    if artist in a.artistAlbums then Success(a.artistAlbums[artist]) else Failure(ServiceError)
  }

  /** `albums(ids)['albums']`: the payloads in the order asked for; the service fails
      when one of the ids is unknown. */
  function Albums(a: Account, ids: seq<string>): (r: Result<seq<Album>>)
    ensures r.Failure? <==> exists id :: id in ids && id !in a.albums
    ensures r.Success? ==> |r.value| == |ids|
    ensures r.Success? ==> forall j :: 0 <= j < |ids| ==> r.value[j] == a.albums[ids[j]]
  {
    if forall id :: id in ids ==> id in a.albums then
      Success(seq(|ids|, j requires 0 <= j < |ids| => a.albums[ids[j]]))
    else Failure(ServiceError)
  }

  /** Every listed playlist has contents. The service keeps this. */
  predicate Consistent(a: Account)
  {
    forall p :: p in a.playlists ==> p.id in a.contents
  }

  /** An authenticated client: the write calls change the account it acts on. */
  class Session {
    var account: Account

    constructor (account: Account)
      ensures this.account == account
    {
      this.account := account;
    }

    /** `user_playlist_create(user, name, public)`: a new empty playlist, listed first,
        under the unused id the service hands out. */
    method UserPlaylistCreate(name: string, public: bool, newId: string)
      requires newId !in account.contents
      modifies this
      ensures account == old(account).(
        playlists := [RemotePlaylist(name, newId, public)] + old(account).playlists,
        contents := old(account).contents[newId := []])
      ensures Consistent(old(account)) ==> Consistent(account)
    {
      account := account.(
        playlists := [RemotePlaylist(name, newId, public)] + account.playlists,
        contents := account.contents[newId := []]);
    }

    /** `user_playlist_replace_tracks(user, id, tracks)`: the playlist now holds exactly
        `tracks`; an unknown id fails and changes nothing. */
    method UserPlaylistReplaceTracks(id: string, tracks: seq<string>) returns (o: Outcome)
      modifies this
      ensures o == (if id in old(account).contents then Pass else Fail(ServiceError))
      ensures account == (if id in old(account).contents
                          then old(account).(contents := old(account).contents[id := tracks])
                          else old(account))
    {
      if id in account.contents {
        account := account.(contents := account.contents[id := tracks]);
        o := Pass;
      } else {
        o := Fail(ServiceError);
      }
    }

    /** `user_playlist_add_tracks(user, id, tracks)`: `tracks` appended to the
        playlist; an unknown id fails and changes nothing. */
    method UserPlaylistAddTracks(id: string, tracks: seq<string>) returns (o: Outcome)
      modifies this
      ensures o == (if id in old(account).contents then Pass else Fail(ServiceError))
      ensures account == (if id in old(account).contents
                          then old(account).(contents := old(account).contents[id := old(account).contents[id] + tracks])
                          else old(account))
    {
      if id in account.contents {
        account := account.(contents := account.contents[id := account.contents[id] + tracks]);
        o := Pass;
      } else {
        o := Fail(ServiceError);
      }
    }
  }
}
