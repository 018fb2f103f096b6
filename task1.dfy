/** The older copy of artist resolution (`task1.py`): the same cleaning and
    alias expansion, but each stage hands the next one JSON text, and the
    caller's search term is stored with every row. */
module Task1 {
  import opened Wrappers
  import opened Tables
  import opened FindArtists
  import opened Text

  /** The JSON text `json.dumps(cleaned_data, ...)` produces, represented by
      the dictionary `json.loads` reads back from it. */
  datatype CleanedJson = CleanedJson(decoded: CleanedArtists)

  /** `artist_json_clean(data)`: the text of the cleaned dictionary. */
  method ArtistJsonClean(data: SearchPayload) returns (cleanedJson: CleanedJson)
    ensures cleanedJson.decoded == Cleaned(data)
  {
    var artists := data.result.artists;
    var entries: seq<ArtistEntry> := [];
    for i := 0 to |artists|
      invariant |entries| == i
      invariant forall k :: 0 <= k < i ==> entries[k] == EntryOf(artists[k])
    {
      entries := entries + [EntryOf(artists[i])];
    }
    cleanedJson := CleanedJson(CleanedArtists(data.result.artistCount, data.result.hlWords, entries));
  }

  /** `append_trans_artists(raw_data, parent_path)`: the loop runs over a
      second parse of the text, so the entries appended to the output are
      never looked at for aliases. */
  method AppendTransArtists(rawData: CleanedJson, parentPath: string, search: string -> SearchPayload)
    returns (outputJson: CleanedJson, searched: seq<string>)
    ensures outputJson.decoded == WithAliases(parentPath, search, rawData.decoded)
    ensures searched == AliasSearches(parentPath, rawData.decoded.artists)
  {
    var outputData := rawData.decoded;
    var data := rawData.decoded;
    searched := [];
    for i := 0 to |data.artists|
      invariant outputData.artistCount == data.artistCount && outputData.hlWords == data.hlWords
      invariant outputData.artists == data.artists + AliasResults(parentPath, search, data.artists[..i])
      invariant searched == AliasSearches(parentPath, data.artists[..i])
    {
      AliasStep(parentPath, search, data.artists, i);
      var artist := data.artists[i];
      if artist.trans.Some? {
        var url := SearchUrl(parentPath, artist.trans.value);
        var rawJson := search(url);
        searched := searched + [url];
        var cleanedJson := ArtistJsonClean(rawJson);
        AppendAssoc(data.artists, AliasResults(parentPath, search, data.artists[..i]), cleanedJson.decoded.artists);
        outputData := outputData.(artists := outputData.artists + cleanedJson.decoded.artists);
      } else {
        assert AliasResults(parentPath, search, data.artists[..i + 1]) == AliasResults(parentPath, search, data.artists[..i]) + [];
      }
    }
    assert data.artists[..|data.artists|] == data.artists;
    outputJson := CleanedJson(outputData);
  }

  /** The inserts of this copy: every row carries the caller's search term. */
  function TermRows(data: CleanedArtists, profile: string, searchTerm: string, rawJson: SearchPayload)
    : (rows: seq<(int, ArtistRow)>)
    ensures |rows| == |data.artists|
  {
    seq(|data.artists|, i requires 0 <= i < |data.artists| =>
      (data.artists[i].artistId, RowOf(data, profile, searchTerm, data.artists[i], rawJson)))
  }

  /** `artists_insertion_query(json_data, search_term, netease_profile, raw_json)`. */
  method ArtistsInsertionQuery(table: KeyedTable<int, ArtistRow>, jsonData: CleanedJson,
                               searchTerm: string, profile: string, rawJson: SearchPayload)
    modifies table
    ensures table.rows == InsertAll(old(table.rows), TermRows(jsonData.decoded, profile, searchTerm, rawJson))
  {
    var data := jsonData.decoded;
    ghost var rows := TermRows(data, profile, searchTerm, rawJson);
    for i := 0 to |data.artists|
      invariant table.rows == InsertAll(old(table.rows), rows[..i])
    {
      var artist := data.artists[i];
      InsertAllSnoc(old(table.rows), rows, i);
      table.Insert(artist.artistId, RowOf(data, profile, searchTerm, artist, rawJson));
    }
    assert rows[..|data.artists|] == rows;
  }

  /** Every row this copy adds carries the caller's search term and the
      payload's shared `artistcount` and `hlwords`. */
  lemma RowsCarrySearchTerm(m: map<int, ArtistRow>, data: CleanedArtists, profile: string,
                            searchTerm: string, rawJson: SearchPayload, k: int)
    requires k in InsertAll(m, TermRows(data, profile, searchTerm, rawJson)) && k !in m
    ensures var row := InsertAll(m, TermRows(data, profile, searchTerm, rawJson))[k];
      && row.searchTerm == searchTerm && row.artistId == k
      && row.artistCount == data.artistCount && row.hlWords == data.hlWords
  {
    InsertAllFrom(m, TermRows(data, profile, searchTerm, rawJson), k);
  }

  /** The two copies write the same rows exactly when every entry's own name
      is the search term; an alias result under another name tells them
      apart. */
  lemma CopiesAgreeIffNamesAreTheTerm(data: CleanedArtists, profile: string,
                                      searchTerm: string, rawJson: SearchPayload)
    ensures TermRows(data, profile, searchTerm, rawJson) == OwnNameRows(data, profile, rawJson)
      <==> forall i :: 0 <= i < |data.artists| ==> data.artists[i].artistName == searchTerm
  {
    var older, newer := TermRows(data, profile, searchTerm, rawJson), OwnNameRows(data, profile, rawJson);
    if older == newer {
      forall i | 0 <= i < |data.artists| ensures data.artists[i].artistName == searchTerm {
        assert older[i].1.searchTerm == newer[i].1.searchTerm;
      }
    }
  }
}
