/** Lyric records (`song_lyrics_t4.py`): a `/lyric` payload is classified as
    a translated lyric, a pure-music record or nothing, the songwriters are
    read out of the lyric's credit lines, and records are stored in the
    `songlyric` table keyed by lyric id. */
module SongLyrics {
  import opened Wrappers
  import opened Text
  import opened Tables

  datatype TransUser = TransUser(id: Option<int>, status: Option<int>, userid: Option<int>, uptime: Option<int>)

  /** An `lrc` or `tlyric` object. */
  datatype Lrc = Lrc(version: Option<int>, lyric: Option<string>)

  /** A `/lyric` payload; `puremusic` is the value of that key if present. */
  datatype LyricPayload = LyricPayload(
    transUser: Option<TransUser>, puremusic: Option<bool>, lrc: Option<Lrc>, tlyric: Option<Lrc>)

  /** A field read with `.get(key, 'Not found')`. */
  datatype Scalar = Num(n: int) | NotFound

  function ScalarOf(o: Option<int>): Scalar {
    if o.Some? then Num(o.value) else NotFound
  }

  /** The record `clean_lyric_json` builds. */
  datatype LyricInfo = LyricInfo(
    lyricId: string, lyricStatus: Scalar, userId: Scalar, uptime: Scalar, version: Scalar,
    lyrics: string, tlyrics: Option<string>, jsonString: LyricPayload, songwriters: seq<string>)

  /** `{}` or a record. */
  datatype LyricResult = NoLyric | Lyric(info: LyricInfo)

  /** `re.findall(marker + '(.*?)' + term, s)`: scanning from the left, every
      non-overlapping match gives the text between the marker and the next
      `term`, which holds neither a line break nor `term`. */
  function Captures(s: string, marker: string, term: string): (caps: seq<string>)
    requires term != []
    ensures forall i :: 0 <= i < |caps| ==> '\n' !in caps[i] && !Contains(caps[i], term)
    decreases |s|
  {
    if s == [] then []
    else if StartsWith(s, marker) && TermEnd(s[|marker|..], term).Some? then
      var k := TermEnd(s[|marker|..], term).value;
      [s[|marker|..][..k]] + Captures(s[|marker|..][k + |term|..], marker, term)
    else Captures(s[1..], marker, term)
  }

  /** A text without the marker has no captures. */
  lemma {:induction false} CapturesWithoutMarker(s: string, marker: string, term: string)
    requires term != [] && !Contains(s, marker)
    ensures Captures(s, marker, term) == []
    decreases |s|
  {
    if s != [] {
      CapturesWithoutMarker(s[1..], marker, term);
    }
  }

  /** A text without the first character of `term` has no captures. */
  lemma {:induction false} CapturesWithoutTerm(s: string, marker: string, term: string)
    requires term != [] && term[0] !in s
    ensures Captures(s, marker, term) == []
    decreases |s|
  {
    if s != [] {
      if StartsWith(s, marker) {
        assert forall c :: c in s[|marker|..] ==> c in s;
        TermEndWithout(s[|marker|..], term);
      }
      CapturesWithoutTerm(s[1..], marker, term);
    }
  }

  /** A credit at the start of the text is captured first. */
  lemma CapturesLeadingCredit(marker: string, name: string, term: string, rest: string)
    requires term != [] && '\n' !in name && term[0] !in name
    ensures Captures(marker + name + term + rest, marker, term) == [name] + Captures(rest, marker, term)
  {
    var s := marker + name + term + rest;
    assert s[..|marker|] == marker;
    var t := s[|marker|..];
    assert t == name + term + rest;
    TermEndAfter(name, term, rest);
    assert t[..|name|] == name;
    assert t[|name| + |term|..] == rest;
  }

  const LyricistMarker: string := "作词 : "
  const ComposerMarker: string := "作曲 : "

  /** The songwriter credits as the pattern is written: it ends a credit at
      the two characters backslash and `n`, not at a line break. */
  function SongwritersAsWritten(lyrics: string): seq<string> {
    Captures(lyrics, LyricistMarker, "\\n") + Captures(lyrics, ComposerMarker, "\\n")
  }

  /** Every lyricist credit, then every composer credit, each ending at a
      line break: the credit lines of a decoded lyric. */
  function Songwriters(lyrics: string): seq<string> {
    Captures(lyrics, LyricistMarker, "\n") + Captures(lyrics, ComposerMarker, "\n")
  }

  /** A decoded lyric has real line breaks, so the pattern as written finds
      no credit in a credit line that the line-break pattern reads. */
  lemma CreditLineMissedAsWritten(name: string)
    requires '\n' !in name && '\\' !in name
    ensures SongwritersAsWritten(LyricistMarker + name + "\n") == []
    ensures var w := Songwriters(LyricistMarker + name + "\n"); |w| >= 1 && w[0] == name
  {
    var s := LyricistMarker + name + "\n";
    assert '\\' !in LyricistMarker;
    assert '\\' !in s;
    CapturesWithoutTerm(s, LyricistMarker, "\\n");
    CapturesWithoutTerm(s, ComposerMarker, "\\n");
    assert s == LyricistMarker + name + "\n" + "";
    CapturesLeadingCredit(LyricistMarker, name, "\n", "");
  }

  /** Without an `lrc` lyric the text is `"Not found"` and there are no
      songwriters. */
  lemma NotFoundHasNoSongwriters()
    ensures Songwriters("Not found") == [] && SongwritersAsWritten("Not found") == []
  {
    CapturesWithoutTerm("Not found", LyricistMarker, "\\n");
    CapturesWithoutTerm("Not found", ComposerMarker, "\\n");
    CapturesWithoutTerm("Not found", LyricistMarker, "\n");
    CapturesWithoutTerm("Not found", ComposerMarker, "\n");
  }

  /** `data.get('lrc', {}).get('lyric', 'Not found')`. */
  function LyricsOf(data: LyricPayload): string {
    if data.lrc.Some? && data.lrc.value.lyric.Some? then data.lrc.value.lyric.value else "Not found"
  }

  /** `data.get('lrc', {}).get('version', 'Not found')`. */
  function VersionOf(data: LyricPayload): Scalar {
    if data.lrc.Some? then ScalarOf(data.lrc.value.version) else NotFound
  }

  /** A `tlyric` object is truthy when it holds a key. */
  predicate TlyricTruthy(data: LyricPayload) {
    data.tlyric.Some? && (data.tlyric.value.version.Some? || data.tlyric.value.lyric.Some?)
  }

  /** `tlyrics`: nothing for an absent or empty `tlyric`. */
  function TlyricsOf(data: LyricPayload): (t: Option<string>)
    ensures t.None? <==> !TlyricTruthy(data)
  {
    if TlyricTruthy(data) then Some(data.tlyric.value.lyric.GetOr("Not found")) else None
  }

  /** The id of the `k`-th pure-music record. */
  function PureId(k: nat): string {
    "pure_music_" + NatToString(k)
  }

  /** The lyric id of a translated lyric, if the payload has one. */
  predicate HasTransUserId(data: LyricPayload) {
    data.transUser.Some? && data.transUser.value.id.Some?
  }

  /** The record of a translated lyric, with the given songwriters. */
  function TransRecord(data: LyricPayload, songwriters: seq<string>): LyricInfo
    requires HasTransUserId(data)
  {
    var u := data.transUser.value;
    LyricInfo(IntToString(u.id.value), ScalarOf(u.status), ScalarOf(u.userid), ScalarOf(u.uptime),
      VersionOf(data), LyricsOf(data), TlyricsOf(data), data, songwriters)
  }

  /** `clean_lyric_json(data, artistname)` with the pure-music counter at
      `sequence`: the record and the counter afterwards. A translated lyric
      gives the printed id and its songwriters; otherwise a truthy
      `puremusic` gives the next pure-music record; otherwise `{}`. */
  function CleanLyric(data: LyricPayload, sequence: nat): (res: (LyricResult, nat))
    ensures HasTransUserId(data) ==>
      && res.0.Lyric? && res.0.info.lyricId == IntToString(data.transUser.value.id.value)
      && res.0.info.songwriters == Songwriters(res.0.info.lyrics) && res.1 == sequence
    ensures !HasTransUserId(data) && data.puremusic == Some(true) ==>
      && res.0.Lyric? && res.0.info.lyricId == PureId(sequence) && res.1 == sequence + 1
      && res.0.info.lyricStatus == NotFound && res.0.info.userId == NotFound
      && res.0.info.uptime == NotFound && res.0.info.songwriters == []
    ensures !HasTransUserId(data) && data.puremusic != Some(true) ==> res == (NoLyric, sequence)
    ensures res.0.Lyric? ==> res.0.info.lyrics == LyricsOf(data) && res.0.info.tlyrics == TlyricsOf(data)
  {
    if HasTransUserId(data) then
      (Lyric(TransRecord(data, Songwriters(LyricsOf(data)))), sequence)
    else if data.puremusic == Some(true) then
      (Lyric(LyricInfo(PureId(sequence), NotFound, NotFound, NotFound,
        VersionOf(data), LyricsOf(data), TlyricsOf(data), data, [])), sequence + 1)
    else (NoLyric, sequence)
  }

  /** Different counter values give different pure-music ids. */
  lemma PureIdsDistinct(a: nat, b: nat)
    requires PureId(a) == PureId(b)
    ensures a == b
  {
    assert PureId(a)[11..] == NatToString(a);
    assert PureId(b)[11..] == NatToString(b);
    NatToStringInjective(a, b);
  }

  /** A pure-music id never equals the id of a translated lyric, so the two
      kinds of record never collide in the table. */
  lemma PureIdIsNotTransUserId(k: nat, id: int)
    ensures PureId(k) != IntToString(id)
  {
    assert PureId(k)[0] == 'p';
  }

  /** `clean_lyric_json` as written: the pure-music branch reads the local
      `pure_music_sequence` before the function assigns it, which raises,
      and the songwriters are read with the pattern as written. */
  function CleanLyricJsonAsWritten(data: LyricPayload): (r: Result<LyricResult, string>)
    ensures r.Failure? <==> !HasTransUserId(data) && data.puremusic == Some(true)
  {
    if HasTransUserId(data) then Success(Lyric(TransRecord(data, SongwritersAsWritten(LyricsOf(data)))))
    else if data.puremusic == Some(true) then
      Failure("UnboundLocalError: local variable 'pure_music_sequence' referenced before assignment")
    else Success(NoLyric)
  }

  /** Every pure-music payload makes the code as written raise, and a
      translated lyric differs from the corrected record in its songwriters
      alone; a payload of neither kind gives `{}` in both. */
  lemma AsWrittenDiffersOnlyOnPureMusic(data: LyricPayload, sequence: nat)
    ensures HasTransUserId(data) ==>
      CleanLyricJsonAsWritten(data)
      == Success(Lyric(CleanLyric(data, sequence).0.info.(songwriters := SongwritersAsWritten(LyricsOf(data)))))
    ensures !HasTransUserId(data) && data.puremusic == Some(true) ==>
      CleanLyricJsonAsWritten(data).Failure? && CleanLyric(data, sequence).0.info.lyricId == PureId(sequence)
    ensures !HasTransUserId(data) && data.puremusic != Some(true) ==>
      CleanLyricJsonAsWritten(data) == Success(CleanLyric(data, sequence).0)
  {
  }

  /** One pure-music payload shows it. */
  lemma PureMusicPayloadRaises()
    ensures CleanLyricJsonAsWritten(LyricPayload(None, Some(true), None, None)).Failure?
    ensures CleanLyric(LyricPayload(None, Some(true), None, None), 0).0.info.lyricId == "pure_music_0"
  {
    assert NatToString(0) == "0";
  }

  /** The cleaner with the pure-music counter as its state, which starts at
      0 and grows by one per pure-music record. */
  class LyricCleaner {
    var pureMusicSequence: nat

    constructor ()
      ensures pureMusicSequence == 0
    {
      pureMusicSequence := 0;
    }

    method CleanLyricJson(data: LyricPayload) returns (lyricInfo: LyricResult)
      modifies this
      ensures (lyricInfo, pureMusicSequence) == CleanLyric(data, old(pureMusicSequence))
    {
      var res := CleanLyric(data, pureMusicSequence);
      lyricInfo := res.0;
      pureMusicSequence := res.1;
    }
  }

  /** A row of the `songlyric` table. */
  datatype LyricRow = LyricRow(
    profile: string, searchTerm: string, lyricId: string, lyricStatus: Scalar,
    userId: Scalar, uptime: Scalar, version: Scalar, lyrics: string,
    tlyrics: Option<string>, songwriters: seq<string>, jsonString: LyricPayload)

  function LyricRowOf(info: LyricInfo, searchTerm: string, profile: string): LyricRow {
    LyricRow(profile, searchTerm, info.lyricId, info.lyricStatus, info.userId, info.uptime,
      info.version, info.lyrics, info.tlyrics, info.songwriters, info.jsonString)
  }

  /** A value for an `INTEGER` column: a number in the signed 32-bit range.
      The text `'Not found'` is not a number. */
  predicate IntegerFits(x: Scalar) {
    x.Num? && -0x8000_0000 <= x.n <= 0x7fff_ffff
  }

  /** A value for a `BIGINT` column: a number in the signed 64-bit range. */
  predicate BigintFits(x: Scalar) {
    x.Num? && -0x8000_0000_0000_0000 <= x.n <= 0x7fff_ffff_ffff_ffff
  }

  /** The message for a `'Not found'` in a column of the given type. It
      arrives as a quoted literal, which is converted while the statement is
      parsed. */
  function SyntaxError(typeName: string): string {
    "invalid input syntax for type " + typeName + ": \"Not found\""
  }

  /** The message for a number outside the range of the given type. It
      arrives as a bare numeric literal, whose cast to the column type fails
      only when constants are folded, after parsing. */
  function RangeError(typeName: string): string {
    typeName + " out of range"
  }

  /** The error PostgreSQL reports for a `songlyric` row whose typed columns
      (`lyric_status INTEGER`, `user_id BIGINT`, `version INTEGER`) cannot
      hold its values: a `'Not found'` in any of them first, in column order,
      and only then a number out of range, in column order. The other columns
      are `TEXT`. */
  function ColumnError(row: LyricRow): (e: Option<string>)
    ensures e.None? <==> IntegerFits(row.lyricStatus) && BigintFits(row.userId) && IntegerFits(row.version)
    ensures row.lyricStatus.NotFound? ==> e == Some(SyntaxError("integer"))
    ensures row.lyricStatus.Num? && row.userId.NotFound? ==> e == Some(SyntaxError("bigint"))
    ensures row.lyricStatus.Num? && row.userId.Num? && row.version.NotFound? ==> e == Some(SyntaxError("integer"))
    ensures row.lyricStatus.Num? && row.userId.Num? && row.version.Num? ==>
      e == (if !IntegerFits(row.lyricStatus) then Some(RangeError("integer"))
            else if !BigintFits(row.userId) then Some(RangeError("bigint"))
            else if !IntegerFits(row.version) then Some(RangeError("integer"))
            else None)
  {
    if row.lyricStatus.NotFound? then Some(SyntaxError("integer"))
    else if row.userId.NotFound? then Some(SyntaxError("bigint"))
    else if row.version.NotFound? then Some(SyntaxError("integer"))
    else if !IntegerFits(row.lyricStatus) then Some(RangeError("integer"))
    else if !BigintFits(row.userId) then Some(RangeError("bigint"))
    else if !IntegerFits(row.version) then Some(RangeError("integer"))
    else None
  }

  /** A missing value is reported before an out-of-range one in an earlier
      column: a status of 2^31 and no user id give the `BIGINT` syntax
      error, not the `INTEGER` range error. */
  lemma MissingReportedBeforeRange(row: LyricRow)
    requires row.lyricStatus == Num(0x8000_0000) && row.userId == NotFound
    ensures ColumnError(row) == Some("invalid input syntax for type bigint: \"Not found\"")
  {
    assert SyntaxError("bigint") == "invalid input syntax for type bigint: \"Not found\"";
  }

  /** A pure-music record has `'Not found'` for its status, so the database
      rejects it. */
  lemma PureMusicRowRejected(data: LyricPayload, sequence: nat, searchTerm: string, profile: string)
    requires !HasTransUserId(data) && data.puremusic == Some(true)
    ensures var row := LyricRowOf(CleanLyric(data, sequence).0.info, searchTerm, profile);
      ColumnError(row) == Some("invalid input syntax for type integer: \"Not found\"")
  {
    var row := LyricRowOf(CleanLyric(data, sequence).0.info, searchTerm, profile);
    assert row.lyricStatus == NotFound;
    assert SyntaxError("integer") == "invalid input syntax for type integer: \"Not found\"";
  }

  /** A translated lyric is accepted exactly when its status, user id and
      `lrc` version are present and in range. */
  lemma TransRowAccepted(data: LyricPayload, sequence: nat, searchTerm: string, profile: string)
    requires HasTransUserId(data)
    ensures var row := LyricRowOf(CleanLyric(data, sequence).0.info, searchTerm, profile);
      ColumnError(row).None? <==>
        && IntegerFits(ScalarOf(data.transUser.value.status))
        && BigintFits(ScalarOf(data.transUser.value.userid))
        && data.lrc.Some? && IntegerFits(ScalarOf(data.lrc.value.version))
  {
  }

  /** `songlyric_insertion_query(cleaned_song_list, search_term, profile)`:
      nothing for `{}`; a record whose typed columns cannot hold its values
      raises and writes nothing; otherwise one insert keyed by the lyric id. */
  method SonglyricInsertionQuery(table: KeyedTable<string, LyricRow>, cleaned: LyricResult,
                                 searchTerm: string, profile: string)
    returns (outcome: Outcome)
    modifies table
    ensures cleaned.NoLyric? ==> outcome == Done && table.rows == old(table.rows)
    ensures cleaned.Lyric? ==> var row := LyricRowOf(cleaned.info, searchTerm, profile);
      if ColumnError(row).Some? then outcome == Raised(ColumnError(row).value) && table.rows == old(table.rows)
      else outcome == Done && table.rows == InsertIfAbsent(old(table.rows), cleaned.info.lyricId, row)
  {
    if cleaned == NoLyric {
      return Done;
    }
    var row := LyricRowOf(cleaned.info, searchTerm, profile);
    var error := ColumnError(row);
    if error.Some? {
      return Raised(error.value);
    }
    table.Insert(cleaned.info.lyricId, row);
    outcome := Done;
  }
}
