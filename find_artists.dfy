/** Artist resolution (`find_artists_t1.py`): an artist-search payload is
    cleaned into one entry per artist, each entry that has a translated name
    ("trans") triggers one more search whose results are appended, and the
    entries are stored in the `artist` table keyed by artist id. */
module FindArtists {
  import opened Wrappers
  import opened Tables

  /** One entry of `result.artists` in a `/search?type=100` payload. */
  datatype ArtistJson = ArtistJson(
    id: int, name: string, albumSize: int, mvSize: int,
    trans: Option<string>, transNames: Option<seq<string>>)

  datatype SearchResult = SearchResult(artistCount: int, hlWords: seq<string>, artists: seq<ArtistJson>)

  datatype SearchPayload = SearchPayload(result: SearchResult)

  /** The per-artist dictionary of `artist_json_clean`. */
  datatype ArtistEntry = ArtistEntry(
    artistId: int, artistName: string, albumSize: int, mvSize: int, trans: Option<string>)

  /** The dictionary `artist_json_clean` returns. */
  datatype CleanedArtists = CleanedArtists(artistCount: int, hlWords: seq<string>, artists: seq<ArtistEntry>)

  /** The alias rule: the artist's own `trans` when it is a non-empty string,
      otherwise the first of a non-empty `transNames`, otherwise nothing. */
  function SelectTrans(a: ArtistJson): (t: Option<string>)
    ensures t.None? <==> (a.trans.None? || a.trans.value == "") && (a.transNames.None? || a.transNames.value == [])
    ensures a.trans.Some? && a.trans.value != "" ==> t == a.trans
    ensures !(a.trans.Some? && a.trans.value != "") && a.transNames.Some? && a.transNames.value != [] ==>
      t == Some(a.transNames.value[0])
  {
    if a.trans.Some? && a.trans.value != "" then a.trans
    else if a.transNames.Some? && a.transNames.value != [] then Some(a.transNames.value[0])
    else None
  }

  function EntryOf(a: ArtistJson): ArtistEntry {
    ArtistEntry(a.id, a.name, a.albumSize, a.mvSize, SelectTrans(a))
  }

  /** What `artist_json_clean(data)` returns: the counts and highlight words
      copied, and one entry per artist in payload order. */
  function Cleaned(data: SearchPayload): (c: CleanedArtists)
    ensures c.artistCount == data.result.artistCount && c.hlWords == data.result.hlWords
    ensures |c.artists| == |data.result.artists|
    ensures forall i :: 0 <= i < |c.artists| ==> c.artists[i] == EntryOf(data.result.artists[i])
  {
    var artists := data.result.artists;
    CleanedArtists(data.result.artistCount, data.result.hlWords,
      seq(|artists|, i requires 0 <= i < |artists| => EntryOf(artists[i])))
  }

  /** `artist_json_clean(data)`. */
  method ArtistJsonClean(data: SearchPayload) returns (cleanedData: CleanedArtists)
    ensures cleanedData == Cleaned(data)
  {
    cleanedData := CleanedArtists(data.result.artistCount, data.result.hlWords, []);
    var artists := data.result.artists;
    for i := 0 to |artists|
      invariant cleanedData.artistCount == data.result.artistCount
      invariant cleanedData.hlWords == data.result.hlWords
      invariant |cleanedData.artists| == i
      invariant forall k :: 0 <= k < i ==> cleanedData.artists[k] == EntryOf(artists[k])
    {
      var artistInfo := EntryOf(artists[i]);
      cleanedData := cleanedData.(artists := cleanedData.artists + [artistInfo]);
    }
  }

  /** `'/'.join([API_HOST, 'search?keywords=' + name + '&type=100'])`. */
  function SearchUrl(host: string, name: string): string {
    host + "/search?keywords=" + name + "&type=100"
  }

  /** The alias searches made for `artists`: one per entry with a `trans`, in
      order. */
  function AliasSearches(host: string, artists: seq<ArtistEntry>): (urls: seq<string>)
    ensures |urls| <= |artists|
    decreases |artists|
  {
    if artists == [] then []
    else
      var n := |artists| - 1;
      AliasSearches(host, artists[..n])
        + (if artists[n].trans.Some? then [SearchUrl(host, artists[n].trans.value)] else [])
  }

  /** The cleaned results of the alias searches for `artists`, in order. */
  function AliasResults(host: string, search: string -> SearchPayload,
                        artists: seq<ArtistEntry>): seq<ArtistEntry>
    decreases |artists|
  {
    if artists == [] then []
    else
      var n := |artists| - 1;
      AliasResults(host, search, artists[..n])
        + (if artists[n].trans.Some? then Cleaned(search(SearchUrl(host, artists[n].trans.value))).artists else [])
  }

  /** The alias step for one more entry. */
  lemma AliasStep(host: string, search: string -> SearchPayload, artists: seq<ArtistEntry>, i: nat)
    requires i < |artists|
    ensures AliasSearches(host, artists[..i + 1]) == AliasSearches(host, artists[..i])
      + (if artists[i].trans.Some? then [SearchUrl(host, artists[i].trans.value)] else [])
    ensures AliasResults(host, search, artists[..i + 1]) == AliasResults(host, search, artists[..i])
      + (if artists[i].trans.Some? then Cleaned(search(SearchUrl(host, artists[i].trans.value))).artists else [])
  {
    assert artists[..i + 1][..i] == artists[..i];
  }

  /** What `append_trans_artists` leaves in the dictionary: the alias results
      appended after the original entries. */
  function WithAliases(host: string, search: string -> SearchPayload, d: CleanedArtists): (r: CleanedArtists)
    ensures r.artistCount == d.artistCount && r.hlWords == d.hlWords
    ensures |r.artists| >= |d.artists| && r.artists[..|d.artists|] == d.artists
  {
    d.(artists := d.artists + AliasResults(host, search, d.artists))
  }

  /** `append_trans_artists(data_dict, api_server)` against the API at `host`
      (the module constant, not `api_server`), where `search(url)` is the
      payload a search URL answers; `searched` are the requests it makes. */
  method AppendTransArtists(dataDict: CleanedArtists, host: string, search: string -> SearchPayload)
    returns (r: CleanedArtists, searched: seq<string>)
    ensures r == WithAliases(host, search, dataDict)
    ensures searched == AliasSearches(host, dataDict.artists)
  {
    var transArtists: seq<ArtistEntry> := [];
    searched := [];
    var artists := dataDict.artists;
    for i := 0 to |artists|
      invariant transArtists == AliasResults(host, search, artists[..i])
      invariant searched == AliasSearches(host, artists[..i])
    {
      AliasStep(host, search, artists, i);
      var artist := artists[i];
      if artist.trans.Some? {
        var url := SearchUrl(host, artist.trans.value);
        var rawJson := search(url);
        searched := searched + [url];
        var cleanedDict := ArtistJsonClean(rawJson);
        transArtists := transArtists + cleanedDict.artists;
      }
    }
    assert artists[..|artists|] == artists;
    r := dataDict.(artists := dataDict.artists + transArtists);
  }

  /** The results of searching the given URLs, concatenated in order. */
  function SearchAll(search: string -> SearchPayload, urls: seq<string>): seq<ArtistEntry>
    decreases |urls|
  {
    if urls == [] then []
    else
      var n := |urls| - 1;
      SearchAll(search, urls[..n]) + Cleaned(search(urls[n])).artists
  }

  /** Expansion is one level deep: the appended entries are exactly the
      results of the alias searches of the original entries, in order, and
      nothing that a search returned is searched again. */
  lemma {:induction false} AliasResultsAreOneLevel(host: string, search: string -> SearchPayload,
                                                   artists: seq<ArtistEntry>)
    ensures AliasResults(host, search, artists) == SearchAll(search, AliasSearches(host, artists))
    decreases |artists|
  {
    if artists != [] {
      var n := |artists| - 1;
      var before := AliasSearches(host, artists[..n]);
      AliasResultsAreOneLevel(host, search, artists[..n]);
      if artists[n].trans.Some? {
        var url := SearchUrl(host, artists[n].trans.value);
        assert (before + [url])[..|before|] == before;
        assert SearchAll(search, before + [url]) == SearchAll(search, before) + Cleaned(search(url)).artists;
      } else {
        assert before + [] == before;
      }
    }
  }

  /** There is one alias search per original entry with a `trans`, and none
      when no entry has one. */
  lemma {:induction false} AliasSearchCount(host: string, artists: seq<ArtistEntry>)
    ensures |AliasSearches(host, artists)| == |set i | 0 <= i < |artists| && artists[i].trans.Some?|
    decreases |artists|
  {
    if artists != [] {
      var n := |artists| - 1;
      AliasSearchCount(host, artists[..n]);
      var withTrans := set i | 0 <= i < |artists| && artists[i].trans.Some?;
      var before := set i | 0 <= i < n && artists[..n][i].trans.Some?;
      assert before == set i | 0 <= i < n && artists[i].trans.Some?;
      if artists[n].trans.Some? {
        assert withTrans == before + {n};
      } else {
        assert withTrans == before;
      }
    }
  }

  /** A row of the `artist` table. `hlWords` stands for its JSON text and
      `rawJson` for the JSON text of the original search payload. */
  datatype ArtistRow = ArtistRow(
    profile: string, searchTerm: string, artistName: string, artistId: int,
    trans: Option<string>, artistCount: int, hlWords: seq<string>,
    albumSize: int, mvSize: int, rawJson: SearchPayload)

  /** The row stored for one entry, with `searchTerm` in the `search_term`
      column. */
  function RowOf(data: CleanedArtists, profile: string, searchTerm: string,
                 e: ArtistEntry, rawJson: SearchPayload): ArtistRow {
    ArtistRow(profile, searchTerm, e.artistName, e.artistId, e.trans,
      data.artistCount, data.hlWords, e.albumSize, e.mvSize, rawJson)
  }

  /** The inserts of `artists_insertion_query`: the loop rebinds
      `artist_name` to each entry's own name and passes it for both
      `search_term` and `artist_name`. */
  function OwnNameRows(data: CleanedArtists, profile: string, rawJson: SearchPayload)
    : (rows: seq<(int, ArtistRow)>)
    ensures |rows| == |data.artists|
  {
    seq(|data.artists|, i requires 0 <= i < |data.artists| =>
      (data.artists[i].artistId, RowOf(data, profile, data.artists[i].artistName, data.artists[i], rawJson)))
  }

  /** `artists_insertion_query(data, artist_name, netease_profile, raw_json)`:
      one conflict-ignoring insert per entry, in order. The `artistName`
      argument is overwritten before it is used. */
  method ArtistsInsertionQuery(table: KeyedTable<int, ArtistRow>, data: CleanedArtists,
                               artistName: string, profile: string, rawJson: SearchPayload)
    modifies table
    ensures table.rows == InsertAll(old(table.rows), OwnNameRows(data, profile, rawJson))
  {
    var rows := OwnNameRows(data, profile, rawJson);
    var artistName := artistName;
    for i := 0 to |data.artists|
      invariant table.rows == InsertAll(old(table.rows), rows[..i])
    {
      var artist := data.artists[i];
      artistName := artist.artistName;
      assert rows[i] == (artist.artistId, RowOf(data, profile, artistName, artist, rawJson));
      InsertAllSnoc(old(table.rows), rows, i);
      table.Insert(artist.artistId, RowOf(data, profile, artistName, artist, rawJson));
    }
    assert rows[..|data.artists|] == rows;
  }

  /** Every row a batch adds carries the artist's own name as its search
      term, whatever name was searched for. */
  lemma SearchTermIsOwnName(m: map<int, ArtistRow>, data: CleanedArtists, profile: string,
                            rawJson: SearchPayload, k: int)
    requires k in InsertAll(m, OwnNameRows(data, profile, rawJson)) && k !in m
    ensures var row := InsertAll(m, OwnNameRows(data, profile, rawJson))[k];
      row.searchTerm == row.artistName && row.artistId == k
  {
    InsertAllFrom(m, OwnNameRows(data, profile, rawJson), k);
  }

  /** An artist id listed twice keeps the row of its first listing. */
  lemma FirstListingKept(m: map<int, ArtistRow>, data: CleanedArtists, profile: string,
                         rawJson: SearchPayload, i: nat)
    requires i < |data.artists| && data.artists[i].artistId !in m
    requires forall j :: 0 <= j < i ==> data.artists[j].artistId != data.artists[i].artistId
    ensures data.artists[i].artistId in InsertAll(m, OwnNameRows(data, profile, rawJson))
    ensures InsertAll(m, OwnNameRows(data, profile, rawJson))[data.artists[i].artistId]
      == RowOf(data, profile, data.artists[i].artistName, data.artists[i], rawJson)
  {
    var rows := OwnNameRows(data, profile, rawJson);
    assert rows[i].0 in BatchKeys(rows);
    forall j | 0 <= j < i ensures rows[j].0 != rows[i].0 {
    }
    FirstWins(m, rows, i);
  }
}
