/** The playlist publish decision shared by `make_playlist` (spomato/data.py) and
    `Spomato.make_playlist` (spomato/spomato.py): replace the tracks of the first
    playlist carrying the name, or create a private playlist, list the playlists
    again and add the tracks to the first one carrying the name. */
module Publisher {
  import opened Tables
  import opened Catalog

  /** The position of the first row named `name`, or `|listing|` when there is none. */
  function NameIndex(listing: seq<PlaylistRef>, name: string): (i: nat)
    ensures i <= |listing|
    ensures forall j :: 0 <= j < i ==> listing[j].name != name
    ensures i < |listing| ==> listing[i].name == name
    decreases |listing|
  {
    if listing == [] then 0
    else if listing[0].name == name then 0
    else
      var j := NameIndex(listing[1..], name);
      assert forall k :: 0 < k < j + 1 ==> listing[k] == listing[1..][k - 1];
      j + 1
  }

  /** `playlist_df[playlist_df.playlist_name == name].iloc[0].playlist_id`, None when
      no row carries the name (where `iloc[0]` would raise). */
  function FirstMatch(listing: seq<PlaylistRef>, name: string): Option<string>
  {
    var i := NameIndex(listing, name);
    if i < |listing| then Some(listing[i].id) else None
  }

  /** The name is present in the listing exactly when there is a first match, and
      the match is the id of the first row with that name. */
  lemma FirstMatchSpec(listing: seq<PlaylistRef>, name: string)
    ensures FirstMatch(listing, name).None? <==> forall p :: p in listing ==> p.name != name
    ensures FirstMatch(listing, name).Some? ==>
              var i := NameIndex(listing, name);
              i < |listing| && listing[i].name == name && listing[i].id == FirstMatch(listing, name).value
  {
    var i := NameIndex(listing, name);
    if i == |listing| {
      assert forall p :: p in listing ==> exists j :: 0 <= j < |listing| && listing[j] == p;
    } else {
      assert listing[i] in listing;
    }
  }

  /** What a publish leaves: the outcome and the account afterwards. */
  datatype Published = Published(outcome: Outcome, account: Account)

  /** `user_playlist_replace_tracks` on the account value. */
  function Replace(a: Account, id: string, ids: seq<string>): Published
  {
    if id in a.contents then Published(Pass, a.(contents := a.contents[id := ids]))
    else Published(Fail(ServiceError), a)
  }

  /** `user_playlist_add_tracks` on the account value. */
  function Add(a: Account, id: string, ids: seq<string>): Published
  {
    if id in a.contents then Published(Pass, a.(contents := a.contents[id := a.contents[id] + ids]))
    else Published(Fail(ServiceError), a)
  }

  /** `user_playlist_create(user, name, public=False)` on the account value. */
  function Create(a: Account, name: string, newId: string): Account
  {
    a.(playlists := [RemotePlaylist(name, newId, false)] + a.playlists,
       contents := a.contents[newId := []])
  }

  /** The publish decision on the account value. `given` is the caller's
      `playlist_df`, None when the caller passed none; `newId` is the id the service
      assigns to a playlist it creates. */
  function Publish(a: Account, name: string, ids: seq<string>, given: Option<seq<PlaylistRef>>,
                   newId: string): Published
  {
    var listing := if given.Some? then Success(given.value) else GetPlaylists(a);
    match listing
    case Failure(e) => Published(Fail(e), a)
    case Success(playlistDf) =>
      match FirstMatch(playlistDf, name)
      case Some(id) => Replace(a, id, ids)
      case None =>
        // listing again cannot fail now, and its first match is the new playlist
        var created := Create(a, name, newId);
        CreatedIsFirstMatch(a, name, newId);
        Add(created, FirstMatch(GetPlaylists(created).value, name).value, ids)
  }

  /** The publish decision carried out through the client: the calls `make_playlist`
      makes, in its order, given the listing the caller passed (or None). */
  method PublishPlaylist(sp: Session, name: string, songdf: seq<Track>,
                         given: Option<seq<PlaylistRef>>, newId: string) returns (o: Outcome)
    requires newId !in sp.account.contents
    modifies sp
    ensures Published(o, sp.account) == Publish(old(sp.account), name, Ids(songdf), given, newId)
  {
    var listing := if given.Some? then Success(given.value) else GetPlaylists(sp.account);
    if listing.Failure? {
      return Fail(listing.error);
    }
    var tracks := Ids(songdf);
    var found := FirstMatch(listing.value, name);
    if found.Some? {
      o := sp.UserPlaylistReplaceTracks(found.value, tracks);
    } else {
      sp.UserPlaylistCreate(name, false, newId);
      CreatedIsFirstMatch(old(sp.account), name, newId);
      var relisted := GetPlaylists(sp.account);
      var id := FirstMatch(relisted.value, name).value;
      o := sp.UserPlaylistAddTracks(id, tracks);
    }
  }

  /** A playlist created under a new name is the first match when the playlists are
      listed again. */
  lemma CreatedIsFirstMatch(a: Account, name: string, newId: string)
    ensures GetPlaylists(Create(a, name, newId)) == Success(Listing(Create(a, name, newId)))
    ensures FirstMatch(Listing(Create(a, name, newId)), name) == Some(newId)
  {
    var l := Listing(Create(a, name, newId));
    assert l[0] == PlaylistRef(name, newId);
  }

  /** Deciding on a fresh listing: `get_playlists` raises exactly when the user has no
      playlist, and otherwise its first row named `name` is the first playlist of the
      account with that name, in listing order. */
  lemma ListedFirstMatch(a: Account, name: string)
    ensures GetPlaylists(a).Failure? <==> a.playlists == []
    ensures GetPlaylists(a).Success? ==>
              (FirstMatch(GetPlaylists(a).value, name).None? <==>
               forall p :: p in a.playlists ==> p.name != name)
    ensures GetPlaylists(a).Success? && FirstMatch(GetPlaylists(a).value, name).Some? ==>
              exists i :: 0 <= i < |a.playlists| && a.playlists[i].name == name &&
                          a.playlists[i].id == FirstMatch(GetPlaylists(a).value, name).value &&
                          forall j :: 0 <= j < i ==> a.playlists[j].name != name
  {
  }

  /** The listing `make_playlist` decides on: the caller's, or a fresh one. */
  function ListingUsed(a: Account, given: Option<seq<PlaylistRef>>): Result<seq<PlaylistRef>>
  {
    if given.Some? then Success(given.value) else GetPlaylists(a)
  }

  /** Name present: the first matching playlist now holds exactly the picked ids, in
      `songdf` order, and nothing else changes. */
  lemma PublishReplaces(a: Account, name: string, ids: seq<string>, given: Option<seq<PlaylistRef>>,
                        newId: string, id: string)
    requires ListingUsed(a, given).Success?
    requires FirstMatch(ListingUsed(a, given).value, name) == Some(id)
    requires id in a.contents
    ensures Publish(a, name, ids, given, newId) == Published(Pass, a.(contents := a.contents[id := ids]))
  {
  }

  /** Name absent: one new private playlist with that name, listed first, holding
      exactly the picked ids in order; nothing else in the account changes. */
  lemma PublishCreates(a: Account, name: string, ids: seq<string>, given: Option<seq<PlaylistRef>>,
                       newId: string)
    requires ListingUsed(a, given).Success?
    requires forall p :: p in ListingUsed(a, given).value ==> p.name != name
    requires newId !in a.contents
    ensures var r := Publish(a, name, ids, given, newId);
      && r.outcome == Pass
      && r.account == a.(playlists := [RemotePlaylist(name, newId, false)] + a.playlists,
                         contents := a.contents[newId := ids])
  {
    FirstMatchSpec(ListingUsed(a, given).value, name);
    CreatedIsFirstMatch(a, name, newId);
    var created := Create(a, name, newId);
    assert created.contents[newId] == [];
    assert [] + ids == ids;
    assert created.contents[newId := [] + ids] == a.contents[newId := ids];
  }

  /** An account whose listing cannot be fetched is left alone. */
  lemma PublishNoListing(a: Account, name: string, ids: seq<string>, newId: string)
    requires a.playlists == []
    ensures Publish(a, name, ids, None, newId) == Published(Fail(NoObjectsToConcatenate), a)
  {
  }

  /** Publishing keeps every listed playlist backed by contents. */
  lemma PublishConsistent(a: Account, name: string, ids: seq<string>, given: Option<seq<PlaylistRef>>,
                          newId: string)
    requires Consistent(a)
    ensures Consistent(Publish(a, name, ids, given, newId).account)
  {
    var r := Publish(a, name, ids, given, newId);
    var created := Create(a, name, newId);
    assert forall p :: p in created.playlists ==> p in a.playlists || p.id == newId;
  }

  /** Publishing the same picks under the same name a second time, listing the
      playlists afresh each time, changes nothing more: the second call replaces the
      tracks of the playlist the first call wrote with the same ids. */
  lemma {:induction false} PublishTwice(a: Account, name: string, ids: seq<string>, newId: string,
                                        newId': string)
    requires Consistent(a) && newId !in a.contents
    requires Publish(a, name, ids, None, newId).outcome == Pass
    requires newId' !in Publish(a, name, ids, None, newId).account.contents
    ensures var once := Publish(a, name, ids, None, newId);
      Publish(once.account, name, ids, None, newId') == once
  {
    var once := Publish(a, name, ids, None, newId);
    var l := Listing(a);
    FirstMatchSpec(l, name);
    match FirstMatch(l, name)
    case Some(id) =>
      var b := a.(contents := a.contents[id := ids]);
      assert once.account == b;
      assert Listing(b) == l;
      assert b.contents[id := ids] == b.contents;
    case None =>
      CreatedIsFirstMatch(a, name, newId);
      var created := Create(a, name, newId);
      assert [] + ids == ids;
      var b := created.(contents := created.contents[newId := ids]);
      assert once.account == b;
      assert Listing(b) == Listing(created);
      assert b.contents[newId := ids] == b.contents;
  }
}
