/** spomato/parsers.py: the module-level parsers that turn catalog payloads into
    `song_id,time` tables, keeping the tracks available in a market. */
module Parsers {
  import opened Tables

  /** A track object of a catalog payload, reduced to the three fields the parsers read. */
  datatype Record = Record(id: string, availableMarkets: seq<string>, durationMs: int)

  /** An entry of a playlist or of the saved-tracks list: `{'track': record}`. */
  datatype Item = Item(track: Record)

  /** An album payload; `tracks` stands for `data['tracks']['items']`. */
  datatype Album = Album(tracks: seq<Record>)

  /** A playlist payload; `tracks` stands for `data['tracks']['items']`. */
  datatype Playlist = Playlist(tracks: seq<Item>)

  /** The market every parser uses when none is passed. */
  const DefaultMarket: string := "US"

  /** The row a parser builds from a record: its id and `duration_ms/1000`. */
  function Row(record: Record): Track
  {
    Track(record.id, record.durationMs as real / 1000.0)
  }

  /** `item['track']` for every item, in order. */
  function Unwrap(items: seq<Item>): seq<Record>
  {
    seq(|items|, i requires 0 <= i < |items| => items[i].track)
  }

  /** Unwrapping a concatenation unwraps each part. */
  lemma UnwrapConcat(a: seq<Item>, b: seq<Item>)
    ensures Unwrap(a + b) == Unwrap(a) + Unwrap(b)
  {
  }

  /** The table a parser builds from its records before the final concatenation:
      one row per record available in `market`, in input order. */
  function Qualifying(records: seq<Record>, market: string): seq<Track>
  {
    if records == [] then []
    else
      var last := records[|records| - 1];
      Qualifying(records[..|records| - 1], market) +
        (if market in last.availableMarkets then [Row(last)] else [])
  }

  /** `pd.concat(series_list)` over the collected rows: it raises on an empty list. */
  function ConcatRows(rows: seq<Track>): (r: Result<seq<Track>>)
    ensures r.Failure? <==> rows == []
    ensures r.Success? ==> r.value == rows
  {
    if rows == [] then Failure(NoObjectsToConcatenate) else Success(rows)
  }

  /** The rows kept from a concatenation are the rows kept from each part. */
  lemma {:induction false} QualifyingConcat(a: seq<Record>, b: seq<Record>, market: string)
    ensures Qualifying(a + b, market) == Qualifying(a, market) + Qualifying(b, market)
    decreases |b|
  {
    if b == [] {
      assert a + b == a;
    } else {
      var init := b[..|b| - 1];
      assert (a + b)[..|a + b| - 1] == a + init;
      assert (a + b)[|a + b| - 1] == b[|b| - 1];
      QualifyingConcat(a, init, market);
    }
  }

  /** A parser keeps exactly the records available in the market, one row each,
      each row being the record's id and its duration in seconds; it never
      produces more rows than it was given records. */
  lemma {:induction false} QualifyingExactly(records: seq<Record>, market: string)
    ensures |Qualifying(records, market)| <= |records|
    ensures forall t :: t in Qualifying(records, market) <==>
              exists r :: r in records && market in r.availableMarkets && t == Row(r)
    ensures Qualifying(records, market) == [] <==>
              forall r :: r in records ==> market !in r.availableMarkets
  {
    if records != [] {
      var init, last := records[..|records| - 1], records[|records| - 1];
      assert records == init + [last];
      QualifyingExactly(init, market);
      assert forall r :: r in records <==> r in init || r == last;
    }
  }

  /** The k-th row comes from a record available in the market. */
  lemma {:induction false} QualifyingPrefix(records: seq<Record>, i: nat, market: string)
    requires i <= |records|
    ensures Qualifying(records[..i], market) +
              (if i < |records| && market in records[i].availableMarkets then [Row(records[i])] else [])
            == Qualifying(records[..if i < |records| then i + 1 else i], market)
  {
    if i < |records| {
      assert records[..i + 1][..i] == records[..i];
    }
  }

  /** parse_album: keeps the records of `data['tracks']['items']` available in
      `market`; an empty table when none is. */
  method ParseAlbum(data: Album, market: string) returns (df: seq<Track>)
    ensures df == Qualifying(data.tracks, market)
  {
    var seriesList: seq<Track> := [];
    var records := data.tracks;
    for i := 0 to |records|
      invariant seriesList == Qualifying(records[..i], market)
    {
      var record := records[i];
      if market in record.availableMarkets {
        seriesList := seriesList + [Row(record)];
      }
      QualifyingPrefix(records, i, market);
    }
    assert records[..|records|] == records;
    if |seriesList| > 0 {
      df := seriesList;
    } else {
      df := [];
    }
  }

  /** parse_playlist: unwraps `item['track']` from `data['tracks']['items']` and keeps
      the records available in `market`; with none, `pd.concat([])` raises. */
  method ParsePlaylist(data: Playlist, market: string) returns (df: Result<seq<Track>>)
    ensures df == ConcatRows(Qualifying(Unwrap(data.tracks), market))
  {
    var seriesList: seq<Track> := [];
    var items := data.tracks;
    ghost var records := Unwrap(items);
    for i := 0 to |items|
      invariant seriesList == Qualifying(records[..i], market)
    {
      var record := items[i].track;
      if market in record.availableMarkets {
        seriesList := seriesList + [Row(record)];
      }
      QualifyingPrefix(records, i, market);
    }
    assert records[..|items|] == records;
    df := ConcatRows(seriesList);
  }

  /** parse_saved_tracks: the same filter over a bare list of saved-track items;
      with no record available in `market`, `pd.concat([])` raises. */
  method ParseSavedTracks(data: seq<Item>, market: string) returns (df: Result<seq<Track>>)
    ensures df == ConcatRows(Qualifying(Unwrap(data), market))
  {
    var seriesList: seq<Track> := [];
    ghost var records := Unwrap(data);
    for i := 0 to |data|
      invariant seriesList == Qualifying(records[..i], market)
    {
      var record := data[i].track;
      if market in record.availableMarkets {
        seriesList := seriesList + [Row(record)];
      }
      QualifyingPrefix(records, i, market);
    }
    assert records[..|data|] == records;
    df := ConcatRows(seriesList);
  }
}
