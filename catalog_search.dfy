/** Catalog enumeration (`catalog_search_t2.py`): every song page of an
    artist is fetched, flattened into one row per (song, credited artist),
    and either returned as a frame or written to `audit_songs`/`audit_json`,
    after which the artist is marked finished in the work queue. */
module CatalogSearch {
  import opened Wrappers
  import opened Text
  import opened Tables
  import Misc

  datatype CatalogArtist = CatalogArtist(id: Option<int>, name: Option<string>)

  datatype CatalogAlbum = CatalogAlbum(id: int)

  /** One entry of `songs` in a page of `/artist/songs`; every key except
      `al` is read with `.get`. */
  datatype CatalogSong = CatalogSong(
    id: Option<int>, name: Option<string>, alia: Option<seq<string>>,
    ar: Option<seq<CatalogArtist>>, fee: Option<int>, pop: Option<int>,
    mst: Option<int>, cp: Option<int>, no: Option<int>, al: CatalogAlbum)

  datatype CatalogPage = CatalogPage(songs: seq<CatalogSong>)

  /** The dictionary `catalog_clean` builds for one credited artist of a song. */
  datatype CatalogRow = CatalogRow(
    songId: Option<int>, songName: Option<string>, tns: seq<string>,
    artistName: Option<string>, artistId: Option<int>,
    fee: Option<int>, pop: Option<int>, mst: Option<int>,
    copyrightId: Option<int>, no: Option<int>, albumId: int,
    jsonString: CatalogSong)

  /** `song.get('ar', [])`. */
  function Credits(song: CatalogSong): seq<CatalogArtist> {
    song.ar.GetOr([])
  }

  function RowOf(song: CatalogSong, artist: CatalogArtist): CatalogRow {
    CatalogRow(song.id, song.name, song.alia.GetOr([]), artist.name, artist.id,
      song.fee, song.pop, song.mst, song.cp, song.no, song.al.id, song)
  }

  /** The rows of one song, one per credited artist in credit order. */
  function RowsOfSong(song: CatalogSong): seq<CatalogRow> {
    seq(|Credits(song)|, j requires 0 <= j < |Credits(song)| => RowOf(song, Credits(song)[j]))
  }

  /** The rows of a list of songs, song by song. */
  function RowsOfSongs(songs: seq<CatalogSong>): seq<CatalogRow>
    decreases |songs|
  {
    if songs == [] then []
    else RowsOfSongs(songs[..|songs| - 1]) + RowsOfSong(songs[|songs| - 1])
  }

  /** The number of credits over all songs. */
  function TotalCredits(songs: seq<CatalogSong>): nat
    decreases |songs|
  {
    if songs == [] then 0
    else TotalCredits(songs[..|songs| - 1]) + |Credits(songs[|songs| - 1])|
  }

  /** `catalog_clean(data)`. */
  method CatalogClean(data: CatalogPage) returns (extracted: seq<CatalogRow>)
    ensures extracted == RowsOfSongs(data.songs)
  {
    var songs := data.songs;
    extracted := [];
    for i := 0 to |songs|
      invariant extracted == RowsOfSongs(songs[..i])
    {
      var song := songs[i];
      var credits := Credits(song);
      ghost var before := extracted;
      for j := 0 to |credits|
        invariant |extracted| == |before| + j
        invariant extracted[..|before|] == before
        invariant forall k :: 0 <= k < j ==> extracted[|before| + k] == RowOf(song, credits[k])
      {
        extracted := extracted + [RowOf(song, credits[j])];
      }
      assert extracted == before + RowsOfSong(song);
      assert songs[..i + 1][..i] == songs[..i];
    }
    assert songs[..|songs|] == songs;
  }

  /** The credits of a prefix never exceed those of the whole list. */
  lemma {:induction false} TotalCreditsPrefix(songs: seq<CatalogSong>, i: nat)
    requires i < |songs|
    ensures TotalCredits(songs[..i]) + |Credits(songs[i])| <= TotalCredits(songs)
    decreases |songs|
  {
    var n := |songs| - 1;
    if i < n {
      assert songs[..n][..i] == songs[..i];
      assert songs[..n][i] == songs[i];
      TotalCreditsPrefix(songs[..n], i);
    }
  }

  /** There are as many rows as credits: a song without `ar` adds nothing and
      a song with several artists adds one row for each. */
  lemma {:induction false} RowCount(songs: seq<CatalogSong>)
    ensures |RowsOfSongs(songs)| == TotalCredits(songs)
    decreases |songs|
  {
    if songs != [] {
      RowCount(songs[..|songs| - 1]);
    }
  }

  /** Rows are ordered by song, then by credit: the row of the `j`-th credit of
      song `i` sits after all rows of the songs before it, and copies that
      song's fields and that artist's name and id. */
  lemma {:induction false} RowAt(songs: seq<CatalogSong>, i: nat, j: nat)
    requires i < |songs| && j < |Credits(songs[i])|
    ensures TotalCredits(songs[..i]) + j < |RowsOfSongs(songs)|
    ensures var r := RowsOfSongs(songs)[TotalCredits(songs[..i]) + j];
      && r.songId == songs[i].id && r.songName == songs[i].name
      && r.tns == songs[i].alia.GetOr([])
      && r.artistName == Credits(songs[i])[j].name && r.artistId == Credits(songs[i])[j].id
      && r.fee == songs[i].fee && r.pop == songs[i].pop && r.mst == songs[i].mst
      && r.copyrightId == songs[i].cp && r.no == songs[i].no && r.albumId == songs[i].al.id
      && r.jsonString == songs[i]
    decreases |songs|
  {
    var n := |songs| - 1;
    RowCount(songs[..n]);
    if i < n {
      assert songs[..n][..i] == songs[..i];
      assert songs[..n][i] == songs[i];
      TotalCreditsPrefix(songs[..n], i);
      RowAt(songs[..n], i, j);
    } else {
      assert RowsOfSongs(songs)[TotalCredits(songs[..i]) + j] == RowsOfSong(songs[n])[j];
    }
  }

  /** The number of loop rounds of `while counter < size + 100` with a
      counter stepping 0, 100, 200, ...: the total rounded up to hundreds,
      plus one more page. */
  function PageCount(total: int): nat {
    if total + 100 <= 0 then 0 else (total + 199) / 100
  }

  /** The loop runs round `m` exactly when `m < PageCount(total)`. */
  lemma PageCountIsLoopExit(total: int, m: nat)
    ensures 100 * m < total + 100 <==> m < PageCount(total)
  {
    if total + 100 > 0 {
      var q, r := (total + 199) / 100, (total + 199) % 100;
      assert total + 199 == 100 * q + r && 0 <= r < 100;
    }
  }

  /** One page beyond the last full hundred: `ceil(total / 100) + 1` pages. */
  lemma PageCountOvershoots(total: nat)
    ensures PageCount(total) == (total + 99) / 100 + 1
  {
  }

  /** The offsets requested for a total, in request order. */
  function PageOffsets(total: int): seq<int> {
    seq(PageCount(total), i requires 0 <= i => 100 * i)
  }

  /** An offset is requested exactly when it is a non-negative multiple of
      100 below `total + 100`. */
  lemma PageOffsetsAreTheLoop(total: int, k: int)
    ensures k in PageOffsets(total) <==> 0 <= k && k % 100 == 0 && k < total + 100
  {
    var offsets := PageOffsets(total);
    if k in offsets {
      var i :| 0 <= i < |offsets| && offsets[i] == k;
      PageCountIsLoopExit(total, i);
    }
    if 0 <= k && k % 100 == 0 && k < total + 100 {
      var m := k / 100;
      assert k == 100 * m;
      PageCountIsLoopExit(total, m);
      assert offsets[m] == k;
    }
  }

  lemma PageOffsetsExamples()
    ensures PageOffsets(250) == [0, 100, 200, 300]
    ensures PageOffsets(0) == [0]
    ensures PageOffsets(100) == [0, 100]
  {
    assert PageCount(250) == 4 && PageCount(0) == 1 && PageCount(100) == 2;
  }

  /** `'/'.join([api_url, 'artist/songs?id=' + str(artist_id)])`. */
  function CountPath(host: string, artistId: int): string {
    host + "/artist/songs?id=" + IntToString(artistId)
  }

  /** `'&'.join([parent_path, 'offset=' + str(offset) + '&limit=100'])`. */
  function PageUrl(path: string, offset: int): string {
    path + "&offset=" + IntToString(offset) + "&limit=100"
  }

  /** The URLs of the first `n` pages. */
  function PageUrls(path: string, n: nat): (urls: seq<string>)
    ensures |urls| == n
    ensures forall k :: 0 <= k < n ==> urls[k] == PageUrl(path, 100 * k)
  {
    if n == 0 then [] else PageUrls(path, n - 1) + [PageUrl(path, 100 * (n - 1))]
  }

  /** Different offsets give different URLs, so no page is asked for twice. */
  lemma PageUrlInjective(path: string, a: int, b: int)
    requires PageUrl(path, a) == PageUrl(path, b)
    ensures a == b
  {
    var u := PageUrl(path, a);
    var lo := |path| + |"&offset="|;
    var sa, sb := IntToString(a), IntToString(b);
    assert u == path + "&offset=" + sa + "&limit=100";
    assert |sa| == |sb|;
    assert u[lo..lo + |sa|] == sa;
    assert PageUrl(path, b)[lo..lo + |sb|] == sb;
    IntToStringInjective(a, b);
  }

  /** The query of a page URL splits into its three parameters. */
  lemma PageQuerySplit(id: string, off: string)
    requires '&' !in id && '&' !in off
    ensures Split("id=" + id + "&offset=" + off + "&limit=100", '&')
      == ["id=" + id, "offset=" + off, "limit=100"]
  {
    var a, b, c := "id=" + id, "offset=" + off, "limit=100";
    assert "id=" + id + "&offset=" + off + "&limit=100" == a + ['&'] + b + ['&'] + c;
    SplitThree(a, b, c, '&');
  }

  /** Every page URL still names the artist: profile-id parsing finds the
      artist id as its `id` parameter. */
  lemma PageUrlCarriesArtistId(host: string, artistId: int, offset: int)
    requires '?' !in host
    ensures Misc.GetIdFromNeteaseUrl(PageUrl(CountPath(host, artistId), offset))
      == Misc.Id(IntToString(artistId))
  {
    var id, off := IntToString(artistId), IntToString(offset);
    var query := "id=" + id + "&offset=" + off + "&limit=100";
    assert PageUrl(CountPath(host, artistId), offset) == host + "/artist/songs" + "?" + query;
    assert '?' !in id && '?' !in off && '&' !in id && '&' !in off && '=' !in id;
    assert '?' !in query;
    Misc.OnlyTextAfterLastQuestionMark(host + "/artist/songs", query);
    PageQuerySplit(id, off);
    FirstOfThree("id=" + id, "offset=" + off, "limit=100");
    Misc.FirstIdAmongOthers([], id, ["offset=" + off, "limit=100"]);
  }

  lemma FirstOfThree<T>(a: T, b: T, c: T)
    ensures [a, b, c] == [] + [a] + [b, c]
  {
  }

  /** The rows of the pages behind `urls`, fetched in order. */
  function FetchedRows(fetchPage: string -> CatalogPage, urls: seq<string>): seq<CatalogRow>
    decreases |urls|
  {
    if urls == [] then []
    else FetchedRows(fetchPage, urls[..|urls| - 1]) + RowsOfSongs(fetchPage(Last(urls)).songs)
  }

  /** Fetching one more URL appends the rows of its page. */
  lemma FetchedRowsSnoc(fetchPage: string -> CatalogPage, urls: seq<string>, url: string)
    ensures FetchedRows(fetchPage, urls + [url]) == FetchedRows(fetchPage, urls) + RowsOfSongs(fetchPage(url).songs)
  {
    assert (urls + [url])[..|urls|] == urls;
  }

  /** The offset loop of `get_all_artist_songs` for one artist: the pages at
      offsets 0, 100, ... while the offset is below `size + 100`, cleaned and
      concatenated. `urls` are the requests it makes. */
  method CollectCatalog(path: string, size: int, fetchPage: string -> CatalogPage)
    returns (rows: seq<CatalogRow>, urls: seq<string>)
    ensures urls == PageUrls(path, PageCount(size))
    ensures rows == FetchedRows(fetchPage, urls)
  {
    rows, urls := [], [];
    var counter := 0;
    ghost var m: nat := 0;
    while counter < size + 100
      invariant counter == 100 * m && m <= PageCount(size)
      invariant urls == PageUrls(path, m)
      invariant rows == FetchedRows(fetchPage, urls)
      decreases size + 100 - counter
    {
      PageCountIsLoopExit(size, m);
      var url := PageUrl(path, counter);
      var dataDict := fetchPage(url);
      var cleaned := CatalogClean(dataDict);
      FetchedRowsSnoc(fetchPage, urls, url);
      rows := rows + cleaned;
      urls := urls + [url];
      counter := counter + 100;
      m := m + 1;
    }
    PageCountIsLoopExit(size, m);
  }

  /** `get_song_size` followed by the offset loop: the requests made for one
      artist, the count request first. */
  function ArtistRequests(host: string, songCount: string -> int, artistId: int): seq<string> {
    var path := CountPath(host, artistId);
    [path] + PageUrls(path, PageCount(songCount(path)))
  }

  /** All catalog rows of one artist. */
  function ArtistRows(host: string, songCount: string -> int, fetchPage: string -> CatalogPage,
                      artistId: int): seq<CatalogRow> {
    var path := CountPath(host, artistId);
    FetchedRows(fetchPage, PageUrls(path, PageCount(songCount(path))))
  }

  /** The row written to `audit_songs` (`tns` is not written, and
      `scrape_time` is `NOW()`). */
  datatype SongEntry = SongEntry(
    songName: Option<string>, artistName: Option<string>, artistId: Option<int>,
    fee: Option<int>, popularity: Option<int>, mst: Option<int>,
    copyrightId: Option<int>, no: Option<int>, scrapeTime: int)

  function SongEntryOf(row: CatalogRow, now: int): SongEntry {
    SongEntry(row.songName, row.artistName, row.artistId, row.fee, row.pop, row.mst,
      row.copyrightId, row.no, now)
  }

  /** The batch reaches the tables only when it is non-empty (an empty one
      leaves `VALUES` without rows, a syntax error) and no row lacks a
      `song_id` (a null in the primary key); either error rolls back. */
  predicate Committed(batch: seq<CatalogRow>) {
    batch != [] && forall i :: 0 <= i < |batch| ==> batch[i].songId.Some?
  }

  /** The `audit_songs` arguments, keyed by `song_id`. */
  function SongArgs(batch: seq<CatalogRow>, now: int): (args: seq<(int, SongEntry)>)
    requires Committed(batch)
    ensures |args| == |batch|
  {
    seq(|batch|, i requires 0 <= i < |batch| => (batch[i].songId.value, SongEntryOf(batch[i], now)))
  }

  /** The `audit_json` arguments, keyed by `(artist_id, song_id)` with the
      unused artist id `-1`. */
  function JsonArgs(batch: seq<CatalogRow>): (args: seq<((int, int), CatalogSong)>)
    requires Committed(batch)
    ensures |args| == |batch|
  {
    seq(|batch|, i requires 0 <= i < |batch| => ((-1, batch[i].songId.value), batch[i].jsonString))
  }

  /** The artist ids the `finished` update matches (a null matches nothing). */
  function FinishedIds(batch: seq<CatalogRow>): set<int> {
    set i | 0 <= i < |batch| && batch[i].artistId.Some? :: batch[i].artistId.value
  }

  /** `update audit_artists_to_scrape set finished = True` for the queue rows
      whose artist id is among `ids`. */
  function MarkFinished(queue: map<int, bool>, ids: set<int>): (r: map<int, bool>)
    ensures r.Keys == queue.Keys
    ensures forall k :: k in r ==> r[k] == (k in ids || queue[k])
  {
    map k | k in queue :: if k in ids then true else queue[k]
  }

  datatype StoreState = StoreState(
    auditSongs: map<int, SongEntry>, auditJson: map<(int, int), CatalogSong>,
    toScrape: map<int, bool>)

  /** The effect of `catalog_insertion_query(batch)` at time `now`. */
  function AfterBatch(st: StoreState, batch: seq<CatalogRow>, now: int): StoreState {
    if Committed(batch) then
      StoreState(
        InsertAll(st.auditSongs, SongArgs(batch, now)),
        InsertAll(st.auditJson, JsonArgs(batch)),
        MarkFinished(st.toScrape, FinishedIds(batch)))
    else st
  }

  /** The song ids of a committed batch, whatever the time. */
  lemma SongArgsKeys(batch: seq<CatalogRow>, now: int)
    requires Committed(batch)
    ensures BatchKeys(SongArgs(batch, now)) == set i | 0 <= i < |batch| :: batch[i].songId.value
  {
    var args := SongArgs(batch, now);
    forall k | k in BatchKeys(args) ensures exists i :: 0 <= i < |batch| && batch[i].songId.value == k {
      var i :| 0 <= i < |args| && args[i].0 == k;
    }
    forall i | 0 <= i < |batch| ensures batch[i].songId.value in BatchKeys(args) {
      assert args[i].0 == batch[i].songId.value;
    }
  }

  /** A song already in `audit_songs`, or one repeated in the batch, keeps
      its first row: a batch row is stored only for a new song id that no
      earlier row of the batch carries. */
  lemma FirstSongRowKept(st: StoreState, batch: seq<CatalogRow>, now: int, i: nat)
    requires Committed(batch) && i < |batch|
    requires batch[i].songId.value !in st.auditSongs
    requires forall j :: 0 <= j < i ==> batch[j].songId != batch[i].songId
    ensures batch[i].songId.value in AfterBatch(st, batch, now).auditSongs
    ensures AfterBatch(st, batch, now).auditSongs[batch[i].songId.value] == SongEntryOf(batch[i], now)
  {
    var args := SongArgs(batch, now);
    assert args[i] == (batch[i].songId.value, SongEntryOf(batch[i], now));
    assert args[i].0 in BatchKeys(args);
    forall j | 0 <= j < i ensures args[j].0 != args[i].0 {
      assert args[j].0 == batch[j].songId.value;
    }
    FirstWins(st.auditSongs, args, i);
  }

  /** Inserting the same batch again, at any later time, changes nothing. */
  lemma ReinsertIsIdempotent(st: StoreState, batch: seq<CatalogRow>, t1: int, t2: int)
    ensures AfterBatch(AfterBatch(st, batch, t1), batch, t2) == AfterBatch(st, batch, t1)
  {
    if Committed(batch) {
      var once := AfterBatch(st, batch, t1);
      var twice := AfterBatch(once, batch, t2);
      SongArgsKeys(batch, t1);
      SongArgsKeys(batch, t2);
      InsertAllPresent(once.auditSongs, SongArgs(batch, t2));
      InsertAllIdempotent(st.auditJson, JsonArgs(batch));
      MarkFinishedIdempotent(st.toScrape, FinishedIds(batch));
      assert twice.auditSongs == once.auditSongs;
      assert twice.auditJson == once.auditJson;
      assert twice.toScrape == once.toScrape;
    }
  }

  lemma MarkFinishedIdempotent(queue: map<int, bool>, ids: set<int>)
    ensures MarkFinished(MarkFinished(queue, ids), ids) == MarkFinished(queue, ids)
  {
  }

  /** Every `audit_json` row a batch adds is filed under artist id `-1`. */
  lemma JsonRowsUnderMinusOne(st: StoreState, batch: seq<CatalogRow>, now: int, key: (int, int))
    requires key in AfterBatch(st, batch, now).auditJson && key !in st.auditJson
    ensures key.0 == -1
  {
    var args := JsonArgs(batch);
    var i :| 0 <= i < |args| && args[i].0 == key;
  }

  /** Every artist of the batch is marked finished and no other queue row
      changes; rows missing from the queue are not created. */
  lemma FinishedMarks(st: StoreState, batch: seq<CatalogRow>, now: int, i: nat)
    requires Committed(batch) && i < |batch|
    requires batch[i].artistId.Some? && batch[i].artistId.value in st.toScrape
    ensures AfterBatch(st, batch, now).toScrape[batch[i].artistId.value]
    ensures AfterBatch(st, batch, now).toScrape.Keys == st.toScrape.Keys
  {
    assert batch[i].artistId.value in FinishedIds(batch);
  }

  /** A rolled-back batch leaves every table as it was. */
  lemma RolledBackBatch(st: StoreState, batch: seq<CatalogRow>, now: int)
    requires batch == [] || exists i :: 0 <= i < |batch| && batch[i].songId.None?
    ensures AfterBatch(st, batch, now) == st
  {
  }

  /** The tables `catalog_insertion_query` writes. */
  class CatalogStore {
    var auditSongs: map<int, SongEntry>
    var auditJson: map<(int, int), CatalogSong>
    var toScrape: map<int, bool>

    constructor (initial: StoreState)
      ensures State() == initial
    {
      auditSongs, auditJson, toScrape := initial.auditSongs, initial.auditJson, initial.toScrape;
    }

    function State(): StoreState
      reads this
    {
      StoreState(auditSongs, auditJson, toScrape)
    }

    /** `catalog_insertion_query(catalog_li)`: the argument lists are built
        row by row, then the three statements run in order. */
    method CatalogInsertionQuery(catalogLi: seq<CatalogRow>, now: int)
      modifies this
      ensures State() == AfterBatch(old(State()), catalogLi, now)
    {
      var songsArgs: seq<(Option<int>, SongEntry)> := [];
      var jsonArgs: seq<((int, Option<int>), CatalogSong)> := [];
      var finishedArgs: seq<Option<int>> := [];
      for k := 0 to |catalogLi|
        invariant |songsArgs| == k && |jsonArgs| == k && |finishedArgs| == k
        invariant forall i :: 0 <= i < k ==>
          songsArgs[i] == (catalogLi[i].songId, SongEntryOf(catalogLi[i], now))
        invariant forall i :: 0 <= i < k ==>
          jsonArgs[i] == ((-1, catalogLi[i].songId), catalogLi[i].jsonString)
        invariant forall i :: 0 <= i < k ==> finishedArgs[i] == catalogLi[i].artistId
      {
        var catalog := catalogLi[k];
        songsArgs := songsArgs + [(catalog.songId, SongEntryOf(catalog, now))];
        jsonArgs := jsonArgs + [((-1, catalog.songId), catalog.jsonString)];
        finishedArgs := finishedArgs + [catalog.artistId];
      }
      if songsArgs != [] && forall i :: 0 <= i < |songsArgs| ==> songsArgs[i].0.Some? {
        var songRows := seq(|songsArgs|, i requires 0 <= i < |songsArgs| => (songsArgs[i].0.value, songsArgs[i].1));
        var jsonRows := seq(|jsonArgs|, i requires 0 <= i < |jsonArgs| =>
          ((jsonArgs[i].0.0, jsonArgs[i].0.1.GetOr(0)), jsonArgs[i].1));
        var finished := set i | 0 <= i < |finishedArgs| && finishedArgs[i].Some? :: finishedArgs[i].value;
        assert songRows == SongArgs(catalogLi, now);
        assert jsonRows == JsonArgs(catalogLi);
        assert finished == FinishedIds(catalogLi);
        auditSongs := InsertAll(auditSongs, songRows);
        auditJson := InsertAll(auditJson, jsonRows);
        toScrape := MarkFinished(toScrape, finished);
      } else {
        assert !Committed(catalogLi) by {
          if catalogLi != [] {
            var i :| 0 <= i < |songsArgs| && songsArgs[i].0.None?;
            assert catalogLi[i].songId.None?;
          }
        }
      }
    }
  }

  /** A row of the returned frame: the row without its `json_string` column. */
  datatype FrameRow = FrameRow(
    songId: Option<int>, songName: Option<string>, tns: seq<string>,
    artistName: Option<string>, artistId: Option<int>,
    fee: Option<int>, pop: Option<int>, mst: Option<int>,
    copyrightId: Option<int>, no: Option<int>, albumId: int)

  function FrameRowOf(r: CatalogRow): FrameRow {
    FrameRow(r.songId, r.songName, r.tns, r.artistName, r.artistId, r.fee, r.pop, r.mst,
      r.copyrightId, r.no, r.albumId)
  }

  /** The outcomes of `get_all_artist_songs`: the frame of the first artist,
      the `KeyError` that dropping `json_string` from a frame without rows
      (hence without columns) raises, or `None` once every artist has been
      written to the tables. */
  datatype Enumeration = Frame(rows: seq<FrameRow>) | MissingJsonColumn | Completed

  /** `pd.DataFrame.from_dict(rows).drop(columns=["json_string"])`. */
  function FrameOf(rows: seq<CatalogRow>): (e: Enumeration)
    ensures e.Frame? <==> rows != []
    ensures e.Frame? ==> |e.rows| == |rows|
    ensures e.Frame? ==> forall i :: 0 <= i < |rows| ==> e.rows[i] == FrameRowOf(rows[i])
  {
    if rows == [] then MissingJsonColumn
    else Frame(seq(|rows|, i requires 0 <= i < |rows| => FrameRowOf(rows[i])))
  }

  /** The tables after writing the artists one batch each, in order. */
  function AfterArtists(st: StoreState, host: string, songCount: string -> int,
                        fetchPage: string -> CatalogPage, now: int, artistIds: seq<int>): StoreState
    decreases |artistIds|
  {
    if artistIds == [] then st
    else
      var n := |artistIds| - 1;
      AfterBatch(AfterArtists(st, host, songCount, fetchPage, now, artistIds[..n]),
        ArtistRows(host, songCount, fetchPage, artistIds[n]), now)
  }

  /** The requests made for the artists, in order. */
  function AllRequests(host: string, songCount: string -> int, artistIds: seq<int>): seq<string>
    decreases |artistIds|
  {
    if artistIds == [] then []
    else
      var n := |artistIds| - 1;
      AllRequests(host, songCount, artistIds[..n]) + ArtistRequests(host, songCount, artistIds[n])
  }

  lemma EmptyPrefix<T>(xs: seq<T>)
    ensures [] + xs == xs
  {
  }

  /** One more artist appends its requests and writes its batch. */
  lemma ArtistsSnoc(st: StoreState, host: string, songCount: string -> int,
                    fetchPage: string -> CatalogPage, now: int, artistIds: seq<int>, i: nat)
    requires i < |artistIds|
    ensures AllRequests(host, songCount, artistIds[..i + 1])
      == AllRequests(host, songCount, artistIds[..i]) + ArtistRequests(host, songCount, artistIds[i])
    ensures AfterArtists(st, host, songCount, fetchPage, now, artistIds[..i + 1])
      == AfterBatch(AfterArtists(st, host, songCount, fetchPage, now, artistIds[..i]),
           ArtistRows(host, songCount, fetchPage, artistIds[i]), now)
  {
    assert artistIds[..i + 1][..i] == artistIds[..i];
  }

  /** `get_all_artist_songs(artist_ids, create_dataframe=createDataframe)`
      against the API at `host`, where `songCount(path)` is the `total` the
      count request answers and `fetchPage(url)` the page a URL answers. With
      a frame requested only the first artist is enumerated and nothing is
      written; otherwise each artist becomes its own batch. */
  method GetAllArtistSongs(store: CatalogStore, artistIds: seq<int>, createDataframe: bool,
                           host: string, songCount: string -> int,
                           fetchPage: string -> CatalogPage, now: int)
    returns (outcome: Enumeration, requests: seq<string>)
    modifies store
    ensures createDataframe && artistIds != [] ==>
      && outcome == FrameOf(ArtistRows(host, songCount, fetchPage, artistIds[0]))
      && requests == ArtistRequests(host, songCount, artistIds[0])
      && store.State() == old(store.State())
    ensures !createDataframe || artistIds == [] ==>
      && outcome == Completed
      && requests == AllRequests(host, songCount, artistIds)
      && store.State() == AfterArtists(old(store.State()), host, songCount, fetchPage, now, artistIds)
  {
    requests := [];
    ghost var st0 := store.State();
    var cleanedCatalogList: seq<CatalogRow> := [];
    for i := 0 to |artistIds|
      invariant createDataframe ==> i == 0
      invariant cleanedCatalogList == []
      invariant requests == AllRequests(host, songCount, artistIds[..i])
      invariant store.State() == AfterArtists(st0, host, songCount, fetchPage, now, artistIds[..i])
    {
      var artistId := artistIds[i];
      var path := CountPath(host, artistId);
      var size := songCount(path);
      var rows, urls := CollectCatalog(path, size, fetchPage);
      assert rows == ArtistRows(host, songCount, fetchPage, artistId);
      assert [path] + urls == ArtistRequests(host, songCount, artistId);
      EmptyPrefix(rows);
      cleanedCatalogList := cleanedCatalogList + rows;
      ArtistsSnoc(st0, host, songCount, fetchPage, now, artistIds, i);
      requests := requests + ([path] + urls);
      if createDataframe {
        assert requests == [] + ArtistRequests(host, songCount, artistId);
        outcome := FrameOf(cleanedCatalogList);
        return;
      }
      store.CatalogInsertionQuery(cleanedCatalogList, now);
      cleanedCatalogList := [];
    }
    assert artistIds[..|artistIds|] == artistIds;
    outcome := Completed;
  }
}
