/** The shared helpers of `misc.py`: reading the artist id out of a profile
    link, and flattening a song-search payload into one record per song. */
module Misc {
  import opened Wrappers
  import opened Text

  /** The three outcomes of `get_id_from_netease_url`: the text of the `id`
      parameter, `None`, or the `IndexError` that `key_value[1]` raises when
      the fragment whose key is `id` has no `=`. */
  datatype IdResult = Id(value: string) | NoId | IndexError

  /** The `&`-separated fragments of the text after the last `?`. */
  function QueryFragments(url: string): seq<string> {
    Split(Last(Split(url, '?')), '&')
  }

  /** `param.split('=')[0]`. */
  function Key(fragment: string): string {
    Split(fragment, '=')[0]
  }

  /** `param.split('=')[1]`, which raises when there is no `=`. */
  function ValueOf(fragment: string): IdResult {
    var kv := Split(fragment, '=');
    if |kv| >= 2 then Id(kv[1]) else IndexError
  }

  /** Fragment `i` is the first whose key is `id`, and `r` is its value. */
  predicate FirstIdAt(fragments: seq<string>, i: int, r: IdResult) {
    && 0 <= i < |fragments| && Key(fragments[i]) == "id"
    && (forall j :: 0 <= j < i ==> Key(fragments[j]) != "id")
    && r == ValueOf(fragments[i])
  }

  /** The loop over the fragments: the first one whose key is exactly `id`
      decides the result, and only when none has that key is it `None`. */
  function FirstId(fragments: seq<string>): (r: IdResult)
    ensures r == NoId <==> forall i :: 0 <= i < |fragments| ==> Key(fragments[i]) != "id"
    ensures r != NoId ==> exists i :: FirstIdAt(fragments, i, r)
    decreases |fragments|
  {
    if fragments == [] then NoId
    else if Key(fragments[0]) == "id" then
      assert FirstIdAt(fragments, 0, ValueOf(fragments[0]));
      ValueOf(fragments[0])
    else
      var r := FirstId(fragments[1..]);
      assert r != NoId ==> exists i :: FirstIdAt(fragments, i, r) by {
        if r != NoId {
          var i :| FirstIdAt(fragments[1..], i, r);
          assert fragments[i + 1] == fragments[1..][i];
          forall j | 0 <= j < i + 1 ensures Key(fragments[j]) != "id" {
            if j > 0 { assert fragments[j] == fragments[1..][j - 1]; }
          }
          assert FirstIdAt(fragments, i + 1, r);
        }
      }
      r
  }

  /** A character absent from the input is absent from every piece. */
  lemma {:induction false} SplitKeepsOut(s: string, sep: char, c: char)
    requires c !in s
    ensures forall i :: 0 <= i < |Split(s, sep)| ==> c !in Split(s, sep)[i]
    decreases |s|
  {
    if s != [] {
      SplitKeepsOut(s[1..], sep, c);
    }
  }

  /** `get_id_from_netease_url(url)`; a value it returns never contains `?`,
      `&` or `=`. */
  function GetIdFromNeteaseUrl(url: string): (r: IdResult)
    ensures r.Id? ==> '?' !in r.value && '&' !in r.value && '=' !in r.value
  {
    var query := Last(Split(url, '?'));
    var fragments := Split(query, '&');
    var r := FirstId(fragments);
    if r.Id? then
      var i :| FirstIdAt(fragments, i, r);
      SplitKeepsOut(query, '&', '?');
      SplitKeepsOut(fragments[i], '=', '?');
      SplitKeepsOut(fragments[i], '=', '&');
      r
    else r
  }

  /** Only the text after the last `?` is looked at. */
  lemma OnlyTextAfterLastQuestionMark(prefix: string, query: string)
    requires '?' !in query
    ensures GetIdFromNeteaseUrl(prefix + "?" + query) == FirstId(Split(query, '&'))
  {
    SplitLastAfter(prefix, query, '?');
  }

  lemma IdFragment(v: string)
    requires '=' !in v
    ensures Key("id=" + v) == "id" && ValueOf("id=" + v) == Id(v)
  {
    assert "id=" + v == "id" + ['='] + v;
    SplitAround("id", v, '=');
    SplitWithoutSeparator("id", '=');
    SplitWithoutSeparator(v, '=');
  }

  /** Whatever surrounds it, the first fragment `id=<v>` is found, and keys
      that merely contain `id` (such as `uid`) are passed over. */
  lemma {:induction false} FirstIdAmongOthers(before: seq<string>, v: string, after: seq<string>)
    requires '=' !in v
    requires forall i :: 0 <= i < |before| ==> Key(before[i]) != "id"
    ensures FirstId(before + ["id=" + v] + after) == Id(v)
    decreases |before|
  {
    var fs := before + ["id=" + v] + after;
    if before == [] {
      assert fs[0] == "id=" + v;
      IdFragment(v);
    } else {
      assert fs[0] == before[0];
      assert fs[1..] == before[1..] + ["id=" + v] + after;
      FirstIdAmongOthers(before[1..], v, after);
    }
  }

  datatype SongArtist = SongArtist(id: int, name: string)

  datatype SongAlbum = SongAlbum(id: int, name: string, publishTime: int, size: Option<int>)

  /** One entry of `result.songs` in a song-search payload. */
  datatype SearchSong = SearchSong(
    id: int, name: string, alias: Option<seq<string>>, artists: seq<SongArtist>,
    album: SongAlbum, copyrightId: int, status: int, fee: int,
    mark: Option<int>, mvid: Option<int>)

  datatype SongSearchResult = SongSearchResult(songs: Option<seq<SearchSong>>)

  datatype SongSearchPayload = SongSearchPayload(code: int, result: SongSearchResult)

  /** The flat record `clean_song_json` builds for one song; `jsonString`
      holds the whole payload it came from. */
  datatype SongRecord = SongRecord(
    songId: int, songName: string, songTrans: seq<string>,
    artistName: string, artistId: string,
    albumId: int, albumName: string, publishTime: int,
    copyrightId: int, status: int, fee: int, mark: int, size: int, mvid: int,
    jsonString: SongSearchPayload)

  function ArtistIdTexts(artists: seq<SongArtist>): seq<string> {
    seq(|artists|, i requires 0 <= i < |artists| => IntToString(artists[i].id))
  }

  function ArtistNameTexts(artists: seq<SongArtist>): seq<string> {
    seq(|artists|, i requires 0 <= i < |artists| => artists[i].name)
  }

  /** The record of one song: credited artists joined by commas, in order, and
      absent optional keys defaulted. Splitting `artistId` on `,` gives the ids
      back (for a song with at least one artist; with none it is `""`). */
  function CleanSong(song: SearchSong, data: SongSearchPayload): (r: SongRecord)
    ensures |song.artists| > 0 ==> Split(r.artistId, ',') == ArtistIdTexts(song.artists)
    ensures song.artists == [] ==> r.artistId == "" && r.artistName == ""
    ensures song.mark.None? ==> r.mark == 0
    ensures song.mvid.None? ==> r.mvid == 0
    ensures song.album.size.None? ==> r.size == 0
    ensures song.alias.None? ==> r.songTrans == []
  {
    var ids := ArtistIdTexts(song.artists);
    assert |ids| > 0 ==> Split(Join(ids, ','), ',') == ids by {
      if |ids| > 0 {
        forall i | 0 <= i < |ids| ensures ',' !in ids[i] {
          assert forall k :: 0 <= k < |ids[i]| ==> ids[i][k] == '-' || '0' <= ids[i][k] <= '9';
        }
        SplitJoin(ids, ',');
      }
    }
    SongRecord(
      song.id, song.name, song.alias.GetOr([]),
      Join(ArtistNameTexts(song.artists), ','), Join(ids, ','),
      song.album.id, song.album.name, song.album.publishTime,
      song.copyrightId, song.status, song.fee, song.mark.GetOr(0),
      song.album.size.GetOr(0), song.mvid.GetOr(0), data)
  }

  /** The test `'songs' in data['result'] and data['code'] == 200`. */
  predicate Accepted(data: SongSearchPayload) {
    data.result.songs.Some? && data.code == 200
  }

  /** `clean_song_json`: nothing unless the payload is accepted, otherwise
      exactly one record per song, in payload order. */
  method CleanSongJson(data: SongSearchPayload) returns (songsInfo: seq<SongRecord>)
    ensures !Accepted(data) ==> songsInfo == []
    ensures Accepted(data) ==> |songsInfo| == |data.result.songs.value|
    ensures Accepted(data) ==> forall i :: 0 <= i < |songsInfo| ==>
      songsInfo[i] == CleanSong(data.result.songs.value[i], data)
  {
    songsInfo := [];
    if Accepted(data) {
      var songs := data.result.songs.value;
      for k := 0 to |songs|
        invariant |songsInfo| == k
        invariant forall i :: 0 <= i < k ==> songsInfo[i] == CleanSong(songs[i], data)
      {
        songsInfo := songsInfo + [CleanSong(songs[k], data)];
      }
    }
  }
}
