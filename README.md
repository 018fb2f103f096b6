# NetEase catalog crawler, modelled in Dafny

This project models the core of a crawler. The crawler finds an artist's
profiles on NetEase Cloud Music, enumerates the artist's catalog, cleans song
and lyric payloads into database rows, and builds a copyright-risk audit of
the songs. Each Python file of the core becomes one Dafny module:

| module | file | what it models |
|---|---|---|
| `Misc` | `misc.py` | reading the artist id out of a profile link; one record per song of a song-search payload |
| `FindArtists` | `find_artists_t1.py` | cleaning an artist-search payload; one level of alias expansion; conflict-ignoring inserts into `artist` |
| `Task1` | `task1.py` | the older copy of the same stages, passing JSON text between them and storing the caller's search term |
| `CatalogSearch` | `catalog_search_t2.py` | the offset loop over `/artist/songs` pages; one row per credited artist; the three statements of a batch insert; the per-artist driver |
| `SongLyrics` | `song_lyrics_t4.py` | classifying a `/lyric` payload as a translated lyric, pure music or nothing; songwriter credits; the `songlyric` insert |
| `LyricSearch` | `lyric_search_t5.py` | removing timestamps and credit lines from a lyric and collecting its distinct lines after the first |
| `LegacyAudit` | `legacy_audit_generator.py` | royalty bands, the four colour passes, major-label renaming, the duplicate-profile sheet |
| `Audit` | `audit_generator.py` | the newer generator: the same bands without the `math` import, duplicates taken from artist resolution |

Three modules support the others:

- `Wrappers` holds `Option`, `Result` and `Outcome` (a method that returns nothing ran to its end or raised).
- `Text` models the Python string operations the core uses: `split`, `join`, `str` of an integer, `str.replace`, `strip`, and a search up to a terminator within one line.
- `Tables` models a PostgreSQL table with a primary key, written with `INSERT ... ON CONFLICT DO NOTHING`. `Tables.KeyedTable` is that table as an object.

The HTTP endpoint each function calls is a function parameter. Examples are
`search: string -> SearchPayload`, `songCount` and `fetchPage`. The request
URLs a method issues are returned as a sequence, so its contract can state
exactly which requests are made and in what order. Database tables are
`KeyedTable` objects or maps. The clock (`NOW()`) is a parameter `now`. In `CatalogSearch.GetAllArtistSongs` one `now` stands for every artist's batch, although each batch is its own transaction with its own `NOW()`.

The modules' imports do not match as written. `find_artists_t1.py:12` and
`catalog_search_t2.py:7` import `DB_PARAMS`, and `task1.py:5` imports
`api_host` and `netease_profile`. `misc.py:7-16` defines `db_params`,
`API_HOST` and `NETEASE_PROFILE` instead. Those three modules therefore raise
`ImportError` when loaded, and so does `audit_generator.py`, which imports
`find_artists_t1.py` at its line 8. The model reads each imported name as the
constant of the same name in `misc.py` and models the functions themselves.

## Model

| member | source | states |
|---|---|---|
| `Misc.FirstId` | misc.py:86-91 | the first fragment whose key is exactly `id` decides the result; `None` exactly when no fragment has that key |
| `Misc.GetIdFromNeteaseUrl` | misc.py:80-91 | an id that is found never contains `?`, `&` or `=` |
| `Misc.OnlyTextAfterLastQuestionMark` | misc.py:84 | only the query after the last `?` is read: the result is `FirstId` of its `&` fragments |
| `Misc.IdFragment` | misc.py:88-90 | the fragment `id=<v>` has key `id` and value `v` |
| `Misc.FirstIdAmongOthers` | misc.py:86-90 | with no earlier fragment keyed `id` (`uid=` included), `id=<v>` yields `v` whatever surrounds it |
| `Misc.CleanSong` | misc.py:101-117 | artist ids joined by `,` split back into the credited ids in order; an empty credit list gives empty text; absent `mark`, `mvid`, `size` default to 0 and absent `alias` to `[]` |
| `Misc.CleanSongJson` | misc.py:93-119 | no records unless `songs` is present and `code` is 200; otherwise one record per song, in payload order |
| `FindArtists.SelectTrans` | find_artists_t1.py:60 | the alias is a non-empty `trans` if there is one, else the first of a non-empty `transNames`, else none |
| `FindArtists.Cleaned` | find_artists_t1.py:45-67 | the count and highlight words are copied, with one entry per artist in order |
| `FindArtists.ArtistJsonClean` | find_artists_t1.py:45-67 | the loop builds exactly `Cleaned(data)` |
| `FindArtists.AliasSearches` | find_artists_t1.py:73-77 | at most one search per entry |
| `FindArtists.WithAliases` | find_artists_t1.py:86 | count and highlight words are kept; the original entries stay in front, unchanged |
| `FindArtists.AppendTransArtists` | find_artists_t1.py:70-88 | the result is the entries followed by the cleaned alias results; the searches are exactly one per entry with a `trans`, in order |
| `FindArtists.AliasResultsAreOneLevel` | find_artists_t1.py:73-84 | the appended entries are exactly the results of the searches made for the original entries: search results are never expanded again |
| `FindArtists.AliasSearchCount` | find_artists_t1.py:74 | the number of searches equals the number of original entries with a `trans` |
| `FindArtists.OwnNameRows` | find_artists_t1.py:120-139 | there is one insert per entry |
| `FindArtists.ArtistsInsertionQuery` | find_artists_t1.py:91-146 | the table becomes the conflict-ignoring inserts of `OwnNameRows`, in order |
| `FindArtists.SearchTermIsOwnName` | find_artists_t1.py:121-131 | since the loop rebinds `artist_name`, every added row's `search_term` is the entry's own name, not the caller's |
| `FindArtists.FirstListingKept` | find_artists_t1.py:110 | an artist id listed twice keeps the row of its first listing |
| `Task1.ArtistJsonClean` | task1.py:36-58 | the text returned decodes to `Cleaned(data)`, the same dictionary as the newer copy |
| `Task1.AppendTransArtists` | task1.py:60-76 | the same result and searches as the newer copy's alias expansion |
| `Task1.TermRows` | task1.py:110-129 | there is one insert per entry |
| `Task1.ArtistsInsertionQuery` | task1.py:78-136 | the table becomes the conflict-ignoring inserts of `TermRows`, in order |
| `Task1.RowsCarrySearchTerm` | task1.py:104-125 | every added row carries the caller's search term and the payload's `artistcount` and `hlwords` |
| `Task1.CopiesAgreeIffNamesAreTheTerm` | task1.py:118-129 | the two copies write the same rows if and only if every entry's name is the search term |
| `CatalogSearch.CatalogClean` | catalog_search_t2.py:67-94 | the loop builds exactly the rows song by song, one per credited artist |
| `CatalogSearch.TotalCreditsPrefix` | catalog_search_t2.py:72-74 | the credits of a prefix plus those of the next song never exceed the total |
| `CatalogSearch.RowCount` | catalog_search_t2.py:72-92 | there are as many rows as credits, and a song without `ar` adds none |
| `CatalogSearch.RowAt` | catalog_search_t2.py:76-89 | the row for credit `j` of song `i` sits at index credits-before-`i` plus `j`, and holds that song's and that artist's fields |
| `CatalogSearch.PageCountIsLoopExit` | catalog_search_t2.py:205-209 | round `m` runs exactly when `100*m < size + 100` |
| `CatalogSearch.PageCountOvershoots` | catalog_search_t2.py:205 | for a non-negative total, `ceil(total/100) + 1` pages are fetched, one more than needed |
| `CatalogSearch.PageOffsetsAreTheLoop` | catalog_search_t2.py:202-209 | an offset is requested iff it is a non-negative multiple of 100 below `size + 100` |
| `CatalogSearch.PageOffsetsExamples` | catalog_search_t2.py:205-209 | totals 250, 0 and 100 request the offsets `[0,100,200,300]`, `[0]` and `[0,100]` |
| `CatalogSearch.PageUrls` | catalog_search_t2.py:54 | URL `k` is the page URL for offset `100*k` |
| `CatalogSearch.PageUrlInjective` | catalog_search_t2.py:54 | different offsets give different URLs |
| `CatalogSearch.PageQuerySplit` | catalog_search_t2.py:38-54 | a page query splits into exactly `id=…`, `offset=…` and `limit=100` |
| `CatalogSearch.PageUrlCarriesArtistId` | catalog_search_t2.py:38-54 | reading the id back out of any page URL gives the artist id |
| `CatalogSearch.CollectCatalog` | catalog_search_t2.py:202-209 | the requests are exactly the page URLs of `PageCount(size)` pages, and the rows are their cleaned pages, concatenated in order |
| `CatalogSearch.SongArgs` | catalog_search_t2.py:110-123 | one `audit_songs` argument per row of a committed batch |
| `CatalogSearch.JsonArgs` | catalog_search_t2.py:110-124 | one `audit_json` argument per row of a committed batch |
| `CatalogSearch.MarkFinished` | catalog_search_t2.py:143-150 | the queue keeps its keys; a row is finished iff it already was or its artist is in the batch |
| `CatalogSearch.SongArgsKeys` | catalog_search_t2.py:123-135 | the song keys are exactly the batch's song ids |
| `CatalogSearch.FirstSongRowKept` | catalog_search_t2.py:133-135 | a new song id keeps the row of its first occurrence in the batch |
| `CatalogSearch.ReinsertIsIdempotent` | catalog_search_t2.py:131-151 | inserting the same batch again, at any time, changes nothing |
| `CatalogSearch.JsonRowsUnderMinusOne` | catalog_search_t2.py:124-140 | every `audit_json` row a batch adds is filed under artist id `-1` |
| `CatalogSearch.FinishedMarks` | catalog_search_t2.py:143-150 | every queued artist of the batch is marked finished, and the queue keeps its keys |
| `CatalogSearch.RolledBackBatch` | catalog_search_t2.py:131-155 | an empty batch, or one with a null song id, rolls back and leaves every table as it was |
| `CatalogSearch.CatalogStore.constructor` | catalog_search_t2.py:165-190 | the store starts in the given state |
| `CatalogSearch.CatalogStore.CatalogInsertionQuery` | catalog_search_t2.py:97-159 | the new state is `AfterBatch` of the old one |
| `CatalogSearch.FrameOf` | catalog_search_t2.py:211-215 | a frame exists iff there are rows; it has one row per catalog row, without `json_string` |
| `CatalogSearch.GetAllArtistSongs` | catalog_search_t2.py:195-222 | with a frame requested, only the first artist is fetched and nothing is written; otherwise each artist is fetched and written as its own batch, in order, with exactly the listed requests |
| `SongLyrics.Captures` | song_lyrics_t4.py:39-40 | no capture contains a line break or the terminator |
| `SongLyrics.CapturesWithoutMarker` | song_lyrics_t4.py:39-40 | a text without the marker has no captures |
| `SongLyrics.CapturesWithoutTerm` | song_lyrics_t4.py:39-40 | a text without the terminator's first character has no captures |
| `SongLyrics.CapturesLeadingCredit` | song_lyrics_t4.py:39-40 | a credit at the start of the text is the first capture, followed by the captures of the rest |
| `SongLyrics.CreditLineMissedAsWritten` | song_lyrics_t4.py:39-40 | on a credit line ended by a line break, the pattern as written captures nothing and the corrected one captures the name |
| `SongLyrics.NotFoundHasNoSongwriters` | song_lyrics_t4.py:33-40 | a payload without an `lrc` lyric yields no songwriters |
| `SongLyrics.TlyricsOf` | song_lyrics_t4.py:34 | `tlyrics` is `None` iff `tlyric` is absent or empty |
| `SongLyrics.CleanLyric` | song_lyrics_t4.py:17-58 | a translated lyric gives its record with the counter unchanged; pure music gives id `pure_music_<n>` and advances the counter; anything else gives `{}` |
| `SongLyrics.PureIdsDistinct` | song_lyrics_t4.py:44-54 | different counter values give different pure-music ids |
| `SongLyrics.PureIdIsNotTransUserId` | song_lyrics_t4.py:25-44 | a pure-music id never equals a translated lyric's id, so the two never collide on `lyric_id` |
| `SongLyrics.CleanLyricJsonAsWritten` | song_lyrics_t4.py:17-58 | raises exactly on pure-music payloads; otherwise the same outcome with the credit pattern as written |
| `SongLyrics.AsWrittenDiffersOnlyOnPureMusic` | song_lyrics_t4.py:28-58 | the code as written and the corrected function differ only in the pure-music branch and the songwriters |
| `SongLyrics.PureMusicPayloadRaises` | song_lyrics_t4.py:43-54 | a pure-music payload raises as written, and the corrected function gives `pure_music_0` |
| `SongLyrics.LyricCleaner.constructor` | song_lyrics_t4.py:44-54 | the counter starts at 0 |
| `SongLyrics.LyricCleaner.CleanLyricJson` | song_lyrics_t4.py:17-58 | result and new counter are `CleanLyric` of the payload and the old counter |
| `SongLyrics.ColumnError` | song_lyrics_t4.py:116-128 | a row is accepted exactly when `lyric_status` and `version` are 32-bit integers and `user_id` a 64-bit one; a `'Not found'` in any of these columns is reported first, as the syntax error of the first such column, and only then a number out of range, as the range error of the first such column |
| `SongLyrics.MissingReportedBeforeRange` | song_lyrics_t4.py:89-99 | a status of 2^31 with no user id is rejected with the `BIGINT` syntax error, not the `INTEGER` range error |
| `SongLyrics.PureMusicRowRejected` | song_lyrics_t4.py:43-56 | every pure-music record carries `'Not found'` as its status, so the `INTEGER` column rejects it |
| `SongLyrics.TransRowAccepted` | song_lyrics_t4.py:28-42 | a translated lyric is stored exactly when its `status`, `userid` and `lrc.version` are present and in range |
| `SongLyrics.SonglyricInsertionQuery` | song_lyrics_t4.py:60-108 | `{}` leaves the table as it is; a record whose status, user id or version the typed columns cannot hold raises with the message `ColumnError` gives (syntax errors before range errors) and writes nothing; any other record is inserted under its `lyric_id` unless that id is present |
| `LyricSearch.LineLen` | lyric_search_t5.py:11 | the `.*` match stops at, and never crosses, a line break |
| `LyricSearch.Step` | lyric_search_t5.py:11-14 | each scan step consumes at least one character |
| `LyricSearch.LineLenBeforeBreak` | lyric_search_t5.py:11 | a line's extent does not change when a line break follows it |
| `LyricSearch.StepBeforeBreak` | lyric_search_t5.py:11-14 | no match reaches across a line break that starts the rest of the text |
| `LyricSearch.RewriteAppend` | lyric_search_t5.py:11-14 | text from a line break on is rewritten independently of what precedes it |
| `LyricSearch.RewriteLine` | lyric_search_t5.py:11-14 | a line after a line break is removed iff it holds `作词` or `作曲`, and is otherwise rewritten on its own |
| `LyricSearch.Kept` | lyric_search_t5.py:11-14 | each line is kept or, for a credit, emptied |
| `LyricSearch.RewrittenLines` | lyric_search_t5.py:11-14 | the first line only loses its timestamps, since no line break precedes it; every later line is kept or emptied |
| `LyricSearch.RewriteByLines` | lyric_search_t5.py:11-14 | the rewrite of a joined lyric is the join of its rewritten lines |
| `LyricSearch.RewriteFollowingLines` | lyric_search_t5.py:11-14 | after a line break, each line is checked for a credit independently |
| `LyricSearch.RewritePlainText` | lyric_search_t5.py:11-14 | a line without `[` or a line break is unchanged |
| `LyricSearch.TimestampReplaced` | lyric_search_t5.py:11-14 | a timestamp `[t]` is replaced by one line break |
| `LyricSearch.RewriteKeepsUnclosed` | lyric_search_t5.py:11-14 | rewriting never introduces a `]` before the first line break |
| `LyricSearch.RewriteClosesNoSegment` | lyric_search_t5.py:11-14 | after rewriting, no `[` is closed by a `]` on the same line |
| `LyricSearch.StrippedAreFixed` | lyric_search_t5.py:17 | every line the comprehension gives is already stripped: stripping it again changes nothing |
| `LyricSearch.NonEmpty` | lyric_search_t5.py:17 | exactly the non-empty pieces are kept |
| `LyricSearch.StripIdempotent` | lyric_search_t5.py:17 | stripping twice strips nothing more |
| `LyricSearch.LyricLineIsStrippedPiece` | lyric_search_t5.py:17 | every kept line is non-empty, stripped and free of line breaks |
| `LyricSearch.CleanLyrics` | lyric_search_t5.py:9-19 | a line is in the result iff it occurs in `lyrics_list` after the first position; each is non-empty, stripped and on one line |
| `LyricSearch.NonEmptyAppend` | lyric_search_t5.py:17 | the filter acts on two parts of a list separately |
| `LyricSearch.TimestampedLine` | lyric_search_t5.py:11-14 | a timestamped line keeps only its text, behind a line break |
| `LyricSearch.TimestampedLyric` | lyric_search_t5.py:9-19 | for a timestamped lyricist line, composer line and words line, the result is only the stripped words: the composer line is a credit and the lyricist line is first |
| `LegacyAudit.CommentTextReplace` | legacy_audit_generator.py:198 | the `"N/A"` replacement changes only a missing count; a printed number never contains `N/A` |
| `LegacyAudit.UpperEstimateBounds` | legacy_audit_generator.py:147-149 | the upper estimate is twice the 5000-level plus 25000, above the count and at least 95000 |
| `LegacyAudit.EstimatedRoyalties` | legacy_audit_generator.py:139-168 | `"N/A"` iff no count or one below 1000; from 35000 up, the count and the float upper estimate |
| `LegacyAudit.EstimatedRoyaltiesIsBandTable` | legacy_audit_generator.py:150-165 | between 1000 and 35000 the estimate is the first band whose lower bound the count reaches, strings verbatim |
| `LegacyAudit.EstimatedRoyaltiesAt40000` | legacy_audit_generator.py:143-168 | 40000 comments give `"$40000 - $105000.0"` |
| `LegacyAudit.Colour` | legacy_audit_generator.py:186-198 | the colour is one of 0 to 3 |
| `LegacyAudit.PassesArePrecedence` | legacy_audit_generator.py:185-198 | the four passes amount to the precedence red, then major, then yellow for 3000 comments, then none |
| `LegacyAudit.ColouredRows` | legacy_audit_generator.py:178-198 | there is one output row per row |
| `LegacyAudit.ColourPasses` | legacy_audit_generator.py:185-198 | the four column rewrites recolour every row and leave every other cell alone |
| `LegacyAudit.RelabelAppend` | legacy_audit_generator.py:109-111 | two successive mapping lists act as their concatenation |
| `LegacyAudit.RelabelUnchanged` | legacy_audit_generator.py:109-111 | non-empty labels that never occur leave the name as it is |
| `LegacyAudit.RelabelGrows` | legacy_audit_generator.py:109-111 | with non-empty labels a name never gets shorter, and grows with every mapping whose label occurs |
| `LegacyAudit.RelabelledRows` | legacy_audit_generator.py:105-111 | there is one output row per row |
| `LegacyAudit.RelabelCompanies` | legacy_audit_generator.py:105-111 | the loop relabels every company and keeps every other cell |
| `LegacyAudit.ProfileLinkRoundTrip` | legacy_audit_generator.py:84 | reading the id back out of a built profile link gives the id |
| `LegacyAudit.DuplicateRows` | legacy_audit_generator.py:77-91 | there is one sheet row per artist of the response |
| `LegacyAudit.DuplicateRowsLinkBack` | legacy_audit_generator.py:82-91 | every row's link names its artist's id, and its profile name is the artist's name |
| `LegacyAudit.AuditGenerator.constructor` | legacy_audit_generator.py:35-38 | the generator holds the name and rows, with no duplicates yet |
| `LegacyAudit.AuditGenerator.FindSimilarFakeArtists` | legacy_audit_generator.py:67-102 | a rejected response raises `Replace cookie in HEADERS`; an accepted one with no artists raises at the missing `id` column; otherwise the sheet becomes its `DuplicateRows`; a raise changes nothing |
| `LegacyAudit.AuditGenerator.ReplaceMajorLabels` | legacy_audit_generator.py:105-111 | the rows are relabelled and nothing else changes |
| `LegacyAudit.AuditGenerator.ColoringRows` | legacy_audit_generator.py:178-198 | the rows are recoloured and nothing else changes |
| `Audit.ProfileNamesArtistId` | audit_generator.py:13-16 | the configured profile link and the configured id name the same artist |
| `Audit.EstimatedRoyalties` | audit_generator.py:97-126 | raises exactly for counts of 35000 and up; otherwise agrees with the older copy |
| `Audit.FixedBandsMatchLegacy` | audit_generator.py:98-123 | gives `$1000+` at 1000 exactly, `N/A` below 1000 or without a count, and the 30000 band at 34999 |
| `Audit.OpenEndedBandRaises` | audit_generator.py:101-107 | 40000 comments raise here, where the older copy answers |
| `Audit.EstimatedRoyaltiesCorrected` | audit_generator.py:97-126 | agrees wherever the code as written answers; from 35000 up it gives the older copy's band, whose upper end exceeds the count |
| `Audit.Duplicates` | audit_generator.py:64 | the kept entries are exactly those of other artists, drawn from the input |
| `Audit.DuplicatesAppend` | audit_generator.py:64 | the filter keeps order, acting on two parts of a list separately |
| `Audit.DuplicatesWithoutArtist` | audit_generator.py:64 | without the audited artist every entry is kept |
| `Audit.AuditGenerator.constructor` | audit_generator.py:23-28 | the generator holds the name, the id `ARTIST_ID` and the rows, with no duplicates yet |
| `Audit.AuditGenerator.SeperateSimilarFakeArtists` | audit_generator.py:63-64 | an empty artist list raises at the missing `artist_id` column and changes nothing; otherwise duplicates are all given artists except the audited one; nothing else changes |
| `Audit.NewAuditGenerator` | audit_generator.py:22-33 | the object exists exactly when the resolved artist list is non-empty, and then holds every artist but `ARTIST_ID` as duplicates; otherwise construction raises |
| `Audit.AuditGenerator.ReplaceMajorLabels` | audit_generator.py:67-73 | the rows are relabelled and nothing else changes |
| `Audit.AuditGenerator.SaveAuditAsXlsx` | audit_generator.py:129-154 | the rows are recoloured and nothing else changes |
| `Tables.InsertIfAbsent` | find_artists_t1.py:110 | adds the key; keeps the stored row of a key already present; leaves other rows alone |
| `Tables.InsertAll` | catalog_search_t2.py:133-140 | the keys become the old keys plus the batch keys; rows already stored are kept |
| `Tables.FirstWins` | catalog_search_t2.py:135 | among batch rows sharing a new key, the first is stored |
| `Tables.InsertAllFrom` | find_artists_t1.py:110 | a key the batch adds is stored with one of the batch's rows |
| `Tables.InsertAllPresent` | song_lyrics_t4.py:83 | a batch whose keys are all present changes nothing |
| `Tables.InsertAllIdempotent` | catalog_search_t2.py:135 | inserting the same batch twice is the same as inserting it once |
| `Tables.InsertAllAppend` | find_artists_t1.py:120-139 | two batches in a row act as their concatenation |
| `Tables.KeyedTable.constructor` | find_artists_t1.py:149-150 | the table starts with the given rows |
| `Tables.KeyedTable.Insert` | find_artists_t1.py:110 | one conflict-ignoring insert |

## Left out

- HTTP requests, their status checks and the exceptions they raise: every endpoint is a function parameter that always answers, and the URLs asked for are returned.
- PostgreSQL connections, cursors and commits: a table is a map from primary key to row. A failed statement is modelled only as the rollback of a batch whose rows cannot be written, that is, a null `song_id` or an empty `VALUES` list, and as the rejection of a `songlyric` record whose typed columns cannot hold its values. The column types of the other tables are not modelled.
- JSON decoding and encoding: payloads are typed records, and `json.dumps` text is represented by the value it encodes. A missing required key (a `KeyError`) and JSON `null` in any field are not modelled: for example `transUser: null` would raise `AttributeError` in `clean_lyric_json`, a null `transUser.id` would give the lyric id `"None"`, and a null `lrc.lyric` would make `re.findall` raise `TypeError`.
- `SongLyrics.TlyricTruthy`: a `tlyric` object counts as truthy when it holds one of the modelled keys; other keys are not represented.
- `LegacyAudit.FloatText`: prints a float as its integral digits and `.0`, which Python does only below 1e16; float precision is not modelled.
- Pandas styling, Excel and S3 output, and the CSV reads of `majors.csv` and `copyright_ids_netease.csv`: the CSV contents are parameters. In `audit_generator.py` the Excel file is written before the colour passes run, so the saved sheet never holds the colours; the model computes the colours only.
- `str.replace` in `replace_major_labels` is taken as a literal replacement; pandas' regular-expression default is not modelled.
- `Audit.NewAuditGenerator`: the `boto3.client('ssm')` call of `__init__` (audit_generator.py:30) is left out, and the result of `get_all_artists_for_name(NETEASE_PROFILE)` (line 32), with its network access and inserts, is the parameter `allArtists`.
- `get_all_artist_songs` and `enrich_audit_df` of both audit generators: they call a scraper and `scrape_song_url`, which are not part of this model; the audit rows are taken as given. In `audit_generator.py` the rows are taken as the colour passes read them: `get_all_artist_songs` renames `cp` to `" copyright_id"` with a leading space (line 53), so the passes' `x["copyright_id"]` (lines 142 and 149) would raise `KeyError` on its frame, and it calls `quit()` at line 58.
- Other functions: `get_all_artists_for_name` and `get_artist_json_from_link` are not part of this model, and neither are the `__main__` blocks (including the songwriter search of `lyric_search_t5.py`) or the table-creation helpers.
- `song_search_t3.py`, `general_search_t6.py` and `audit_spider.py` are not part of this model.
- `LyricSearch.CleanLyrics`: returns a set, because `list(set(...))` has no defined order.
- `FindArtists.AppendTransArtists`: takes the API host as a parameter, although the code ignores its `api_server` argument and always uses `API_HOST`. The host is fixed per call, so the two agree.

## Findings

| source | as written | input that shows it | evidently intended | confidence | as-written member | corrected member |
|---|---|---|---|---|---|---|
| audit_generator.py:101-107 | the open-ended band calls `math.floor`, but the file never imports `math` (lines 3-6) | a comment count of 40000 | the older copy's band `"$40000 - $105000.0"` | not executed | `Audit.EstimatedRoyalties`, `Audit.OpenEndedBandRaises` | `Audit.EstimatedRoyaltiesCorrected` |
| song_lyrics_t4.py:44-54 | `pure_music_sequence` is assigned inside the function, so it is local, and line 44 reads it before any assignment (it would also add an int to a string) | a payload with `puremusic: true` and no `transUser` | a counter kept across calls, giving ids `pure_music_0`, `pure_music_1`, and so on | not executed | `SongLyrics.CleanLyricJsonAsWritten`, `SongLyrics.PureMusicPayloadRaises` | `SongLyrics.CleanLyric`, `SongLyrics.LyricCleaner.CleanLyricJson` |
| song_lyrics_t4.py:39-40 | the raw pattern `\\n` ends a credit at a backslash followed by `n`, while a decoded lyric has real line breaks | the lyric `作词 : Porter Robinson` followed by a line break | the credit ends at the line break and the name is captured | not executed | `SongLyrics.SongwritersAsWritten`, `SongLyrics.CreditLineMissedAsWritten` | `SongLyrics.Songwriters`, `SongLyrics.CleanLyric` |
