/** The audit generator (`legacy_audit_generator.py`): a royalty band per
    comment count, a risk colour per song row, western names appended to
    major-label company names, and the duplicate-profile sheet built from a
    NetEase artist search. */
module LegacyAudit {
  import opened Wrappers
  import opened Text
  import Misc

  /** A `comment_count` cell: the text `"N/A"` or a count. */
  datatype CommentCount = NotAvailable | Count(n: int)

  /** `str(comment_count)`. */
  function CommentText(c: CommentCount): string {
    match c
    case NotAvailable => "N/A"
    case Count(n) => IntToString(n)
  }

  /** `int(str(comment_count).replace("N/A", "0"))`: a missing count is 0. */
  function CommentsForColour(c: CommentCount): int {
    match c
    case NotAvailable => 0
    case Count(n) => n
  }

  /** The replacement only ever changes the `"N/A"` text: a printed number
      never contains it. */
  lemma CommentTextReplace(c: CommentCount)
    ensures ReplaceAll(CommentText(c), "N/A", "0") == (if c.NotAvailable? then "0" else CommentText(c))
  {
    if c.Count? {
      var s := CommentText(c);
      if Contains(s, "N/A") {
        ContainsFirstChar(s, "N/A");
        assert false;
      }
      ReplaceAbsent(s, "N/A", "0");
    } else {
      assert "N/A"[..3] == "N/A";
    }
  }

  /** The upper end of the open-ended band, by the source's formula:
      `level` is the count rounded down to a multiple of 5000, and every 5000
      above 20000 adds 10000 to a base of 65000. */
  function UpperEstimate(n: int): int
    requires n >= 35000
  {
    var level := (n / 5000) * 5000;
    var tenKSteps := (level - 20000) / 5000;
    tenKSteps * 10000 + 65000
  }

  /** The formula is twice the level plus 25000, and always exceeds the
      count itself. */
  lemma UpperEstimateBounds(n: int)
    requires n >= 35000
    ensures UpperEstimate(n) == 2 * ((n / 5000) * 5000) + 25000
    ensures UpperEstimate(n) > n
    ensures UpperEstimate(n) >= 95000
  {
    var q := n / 5000;
    assert n == 5000 * q + n % 5000 && 0 <= n % 5000 < 5000;
    assert q >= 7;
    assert (q * 5000 - 20000) / 5000 == q - 4;
  }

  /** Python's `str()` of an integral float: the digits and `.0`. */
  function FloatText(v: int): string {
    IntToString(v) + ".0"
  }

  /** `estimated_royalties(comment_count)`. */
  function EstimatedRoyalties(c: CommentCount): (r: string)
    ensures (c.NotAvailable? || c.n < 1000) <==> r == "N/A"
    ensures c.Count? && c.n >= 35000 ==>
      r == "$" + IntToString(c.n) + " - $" + FloatText(UpperEstimate(c.n))
  {
    match c
    case NotAvailable => "N/A"
    case Count(n) =>
      if n < 1000 then "N/A"
      else if n >= 35000 then "$" + IntToString(n) + " - $" + FloatText(UpperEstimate(n))
      else if n >= 30000 then "$30,000 - $85,000"
      else if n >= 25000 then "$25,000 - $75,0000"
      else if n >= 20000 then "$20,000 - $65,000+"
      else if n >= 15000 then "$15,000 - $50,0000+"
      else if n >= 10000 then "$10,000 to $30,000+"
      else if n >= 5000 then "$5000 - $10000+"
      else if n >= 2500 then "$2500 - $5000+"
      else "$1000+"
  }

  /** The fixed bands as a table of lower bounds, highest first, with their
      strings verbatim. */
  const Bands: seq<(int, string)> := [
    (30000, "$30,000 - $85,000"), (25000, "$25,000 - $75,0000"),
    (20000, "$20,000 - $65,000+"), (15000, "$15,000 - $50,0000+"),
    (10000, "$10,000 to $30,000+"), (5000, "$5000 - $10000+"),
    (2500, "$2500 - $5000+"), (1000, "$1000+")]

  /** The string of the first band whose lower bound the count reaches. */
  function BandLookup(n: int, bands: seq<(int, string)>): string
    decreases |bands|
  {
    if bands == [] then "N/A"
    else if bands[0].0 <= n then bands[0].1
    else BandLookup(n, bands[1..])
  }

  /** Between 1000 and 35000 the estimate is the table's band. */
  lemma EstimatedRoyaltiesIsBandTable(n: int)
    requires 1000 <= n < 35000
    ensures EstimatedRoyalties(Count(n)) == BandLookup(n, Bands)
  {
    var b := Bands;
    assert BandLookup(n, b[7..]) == "$1000+";
    assert BandLookup(n, b[6..]) == (if n >= 2500 then "$2500 - $5000+" else BandLookup(n, b[7..]));
    assert BandLookup(n, b[5..]) == (if n >= 5000 then "$5000 - $10000+" else BandLookup(n, b[6..]));
    assert BandLookup(n, b[4..]) == (if n >= 10000 then "$10,000 to $30,000+" else BandLookup(n, b[5..]));
    assert BandLookup(n, b[3..]) == (if n >= 15000 then "$15,000 - $50,0000+" else BandLookup(n, b[4..]));
    assert BandLookup(n, b[2..]) == (if n >= 20000 then "$20,000 - $65,000+" else BandLookup(n, b[3..]));
    assert BandLookup(n, b[1..]) == (if n >= 25000 then "$25,000 - $75,0000" else BandLookup(n, b[2..]));
    assert BandLookup(n, b) == (if n >= 30000 then "$30,000 - $85,000" else BandLookup(n, b[1..]));
  }

  /** The open-ended band for 40000 comments. */
  lemma EstimatedRoyaltiesAt40000()
    ensures EstimatedRoyalties(Count(40000)) == "$40000 - $105000.0"
  {
    UpperEstimateAt40000();
    DigitsAt40000();
    assert "$" + "40000" + " - $" + "105000.0" == "$40000 - $105000.0";
  }

  lemma UpperEstimateAt40000()
    ensures UpperEstimate(40000) == 105000
  {
    assert 40000 / 5000 == 8;
  }

  lemma DigitsAt40000()
    ensures IntToString(40000) == "40000" && FloatText(105000) == "105000.0"
  {
    assert NatToString(4) == "4" && NatToString(40) == "40" && NatToString(400) == "400";
    assert NatToString(4000) == "4000" && NatToString(40000) == "40000";
    assert NatToString(1) == "1" && NatToString(10) == "10" && NatToString(105) == "105";
    assert NatToString(1050) == "1050" && NatToString(10500) == "10500";
    assert NatToString(105000) == "105000";
  }

  /** The song-row cells the colour and label passes use. */
  datatype AuditRow = AuditRow(copyrightId: int, company: string, commentCount: CommentCount, copyrightColor: int)

  /** `red_labels`: the company names that are always a red flag. */
  const RedLabels: seq<string> := ["独立发行", "null"]

  /** The risk colour: 1 (red) for a red copyright id or a red label, else 3
      for a major's copyright id, else 2 (yellow) from 3000 comments, else 0. */
  function Colour(row: AuditRow, red: set<int>, majors: set<int>): (c: int)
    ensures 0 <= c <= 3
  {
    if row.copyrightId in red || row.company in RedLabels then 1
    else if row.copyrightId in majors then 3
    else if CommentsForColour(row.commentCount) >= 3000 then 2
    else 0
  }

  /** The first pass: red copyright ids. */
  function RedIdPass(row: AuditRow, red: set<int>): AuditRow {
    row.(copyrightColor := if row.copyrightId in red then 1 else 0)
  }

  /** The second pass: red labels, whatever the first pass gave. */
  function RedLabelPass(row: AuditRow): AuditRow {
    row.(copyrightColor := if row.company in RedLabels then 1 else row.copyrightColor)
  }

  /** The third pass: majors, for rows still uncoloured. */
  function MajorPass(row: AuditRow, majors: set<int>): AuditRow {
    row.(copyrightColor := if row.copyrightColor == 0 && row.copyrightId in majors then 3 else row.copyrightColor)
  }

  /** The fourth pass: yellow for rows still uncoloured with 3000 comments. */
  function CommentPass(row: AuditRow): AuditRow {
    row.(copyrightColor := if row.copyrightColor == 0 && CommentsForColour(row.commentCount) >= 3000
      then 2 else row.copyrightColor)
  }

  /** The four passes in order give the precedence red, major, yellow, none:
      a row matching several rules takes the earliest, and a row's colour
      before the passes plays no part. */
  lemma PassesArePrecedence(row: AuditRow, red: set<int>, majors: set<int>)
    ensures CommentPass(MajorPass(RedLabelPass(RedIdPass(row, red)), majors)).copyrightColor
      == Colour(row, red, majors)
    ensures row.copyrightId in red && row.copyrightId in majors ==> Colour(row, red, majors) == 1
    ensures row.copyrightId in majors && row.copyrightId !in red && row.company !in RedLabels
      ==> Colour(row, red, majors) == 3
    ensures Colour(row, red, majors) == 0 <==>
      row.copyrightId !in red && row.company !in RedLabels && row.copyrightId !in majors
      && CommentsForColour(row.commentCount) < 3000
  {
  }

  /** The rows with their colour recomputed and every other cell kept. */
  function ColouredRows(rows: seq<AuditRow>, red: set<int>, majors: set<int>): (out: seq<AuditRow>)
    ensures |out| == |rows|
  {
    seq(|rows|, i requires 0 <= i < |rows| => rows[i].(copyrightColor := Colour(rows[i], red, majors)))
  }

  /** The four successive rewrites of the `copyright_color` column. */
  method ColourPasses(rows: seq<AuditRow>, red: set<int>, majors: set<int>) returns (out: seq<AuditRow>)
    ensures out == ColouredRows(rows, red, majors)
  {
    out := rows;
    for i := 0 to |out|
      invariant |out| == |rows|
      invariant forall j :: 0 <= j < |rows| ==> out[j] == if j < i then RedIdPass(rows[j], red) else rows[j]
    {
      out := out[i := RedIdPass(out[i], red)];
    }
    for i := 0 to |out|
      invariant |out| == |rows|
      invariant forall j :: 0 <= j < |rows| ==>
        out[j] == if j < i then RedLabelPass(RedIdPass(rows[j], red)) else RedIdPass(rows[j], red)
    {
      out := out[i := RedLabelPass(out[i])];
    }
    for i := 0 to |out|
      invariant |out| == |rows|
      invariant forall j :: 0 <= j < |rows| ==>
        out[j] == if j < i then MajorPass(RedLabelPass(RedIdPass(rows[j], red)), majors)
          else RedLabelPass(RedIdPass(rows[j], red))
    {
      out := out[i := MajorPass(out[i], majors)];
    }
    for i := 0 to |out|
      invariant |out| == |rows|
      invariant forall j :: 0 <= j < |rows| ==>
        out[j] == if j < i then CommentPass(MajorPass(RedLabelPass(RedIdPass(rows[j], red)), majors))
          else MajorPass(RedLabelPass(RedIdPass(rows[j], red)), majors)
    {
      out := out[i := CommentPass(out[i])];
    }
    forall j | 0 <= j < |rows|
      ensures out[j] == rows[j].(copyrightColor := Colour(rows[j], red, majors))
    {
      PassesArePrecedence(rows[j], red, majors);
    }
  }

  /** A company name after the label mappings `(c_label, w_label)` in file
      order: each replaces every occurrence of `c_label` by
      `c_label + " - " + w_label` in the output of the ones before it. */
  function Relabel(company: string, majors: seq<(string, string)>): string
    decreases |majors|
  {
    if majors == [] then company
    else
      var n := |majors| - 1;
      var c := majors[n].0;
      ReplaceAll(Relabel(company, majors[..n]), c, c + " - " + majors[n].1)
  }

  /** Mappings act one after another: two lists in a row act as their
      concatenation. */
  lemma {:induction false} RelabelAppend(company: string, a: seq<(string, string)>, b: seq<(string, string)>)
    ensures Relabel(company, a + b) == Relabel(Relabel(company, a), b)
    decreases |b|
  {
    if b == [] {
      assert a + b == a;
    } else {
      var n := |b| - 1;
      assert (a + b)[..|a + b| - 1] == a + b[..n];
      assert (a + b)[|a + b| - 1] == b[n];
      RelabelAppend(company, a, b[..n]);
    }
  }

  /** Non-empty labels that never occur leave the name as it is. */
  lemma {:induction false} RelabelUnchanged(company: string, majors: seq<(string, string)>)
    requires forall i :: 0 <= i < |majors| ==> majors[i].0 != [] && !Contains(company, majors[i].0)
    ensures Relabel(company, majors) == company
    decreases |majors|
  {
    if majors != [] {
      var n := |majors| - 1;
      RelabelUnchanged(company, majors[..n]);
      ReplaceAbsent(company, majors[n].0, majors[n].0 + " - " + majors[n].1);
    }
  }

  /** With non-empty labels a name never gets shorter, and it gets longer as
      soon as one mapping finds its label in what the earlier ones left. */
  lemma {:induction false} RelabelGrows(company: string, majors: seq<(string, string)>, k: nat)
    requires forall i :: 0 <= i < |majors| ==> majors[i].0 != []
    ensures |Relabel(company, majors)| >= |company|
    ensures k < |majors| && Contains(Relabel(company, majors[..k]), majors[k].0)
      ==> |Relabel(company, majors)| > |company|
    decreases |majors|
  {
    if majors != [] {
      var n := |majors| - 1;
      var c := majors[n].0;
      RelabelGrows(company, majors[..n], k);
      ReplaceGrows(Relabel(company, majors[..n]), c, c + " - " + majors[n].1);
      if k < n {
        assert majors[..n][..k] == majors[..k];
        assert majors[..n][k] == majors[k];
      } else if k == n {
        assert majors[..k] == majors[..n];
      }
    }
  }

  /** The rows with every company name relabelled and every other cell kept. */
  function RelabelledRows(rows: seq<AuditRow>, majors: seq<(string, string)>): (out: seq<AuditRow>)
    ensures |out| == |rows|
  {
    seq(|rows|, i requires 0 <= i < |rows| => rows[i].(company := Relabel(rows[i].company, majors)))
  }

  /** The loop of `replace_major_labels`: one `str.replace` of the whole
      `company` column per mapping. */
  method RelabelCompanies(rows: seq<AuditRow>, majors: seq<(string, string)>) returns (out: seq<AuditRow>)
    ensures out == RelabelledRows(rows, majors)
  {
    out := rows;
    for k := 0 to |majors|
      invariant |out| == |rows|
      invariant forall i :: 0 <= i < |rows| ==> out[i] == rows[i].(company := Relabel(rows[i].company, majors[..k]))
    {
      var chineseLabel := majors[k].0;
      var replacement := chineseLabel + " - " + majors[k].1;
      assert majors[..k + 1][..k] == majors[..k];
      out := seq(|out|, i requires 0 <= i < |out| => out[i].(company := ReplaceAll(out[i].company, chineseLabel, replacement)));
    }
    assert majors[..|majors|] == majors;
  }

  /** `"https://music.163.com/#/artist?id=" + str(id)`. */
  function ProfileLink(id: int): string {
    "https://music.163.com/#/artist?id=" + IntToString(id)
  }

  /** Profile links round-trip: reading the id back out of a built link
      gives the id's text. */
  lemma ProfileLinkRoundTrip(id: int)
    ensures Misc.GetIdFromNeteaseUrl(ProfileLink(id)) == Misc.Id(IntToString(id))
  {
    var s := IntToString(id);
    assert '?' !in s && '&' !in s && '=' !in s;
    var query := "id=" + s;
    assert ProfileLink(id) == "https://music.163.com/#/artist" + "?" + query;
    assert '?' !in query;
    Misc.OnlyTextAfterLastQuestionMark("https://music.163.com/#/artist", query);
    assert '&' !in query;
    SplitWithoutSeparator(query, '&');
    assert [query] == [] + [query] + [];
    Misc.FirstIdAmongOthers([], s, []);
  }

  /** One artist of a `/api/search/pc` response. */
  datatype PcArtist = PcArtist(id: int, name: string)

  /** The response: its HTTP status, the payload's `code` and its artists. */
  datatype PcSearchResponse = PcSearchResponse(statusCode: int, code: int, artists: seq<PcArtist>)

  /** The response is used only with status 200 and a `code` whose text
      does not contain `462`. */
  predicate ResponseAccepted(response: PcSearchResponse) {
    response.statusCode == 200 && !Contains(IntToString(response.code), "462")
  }

  /** A row of the "Duplicate Profile Accounts" sheet, in its column order. */
  datatype DuplicateRow = DuplicateRow(platform: string, profileName: string, kind: string,
                                       notes: string, profileLink: string)

  function DuplicateRowOf(a: PcArtist): DuplicateRow {
    DuplicateRow("Netease Cloud Music", a.name, "", "", ProfileLink(a.id))
  }

  /** The sheet: one row per artist of the response, in order. */
  function DuplicateRows(artists: seq<PcArtist>): (rows: seq<DuplicateRow>)
    ensures |rows| == |artists|
  {
    seq(|artists|, i requires 0 <= i < |artists| => DuplicateRowOf(artists[i]))
  }

  /** Every row links back to its artist: the link's id is the artist's. */
  lemma DuplicateRowsLinkBack(artists: seq<PcArtist>, i: nat)
    requires i < |artists|
    ensures Misc.GetIdFromNeteaseUrl(DuplicateRows(artists)[i].profileLink) == Misc.Id(IntToString(artists[i].id))
    ensures DuplicateRows(artists)[i].profileName == artists[i].name
  {
    ProfileLinkRoundTrip(artists[i].id);
  }

  /** `ARTIST_NAME`, lower-cased at load time. */
  const ArtistName: string := "porter robinson"

  /** The search URL of `find_similar_fake_artists`. */
  const DuplicatesSearchUrl: string :=
    "http://music.163.com/api/search/pc?type=100&s=" + ArtistName + "&limit=50&offset=0"

  /** The object of `legacy_audit_generator.py`. `auditRows` stands for the
      frame that `get_all_artist_songs` and `enrich_audit_df` build, which is
      taken as given. */
  class AuditGenerator {
    var artistName: string
    var auditRows: seq<AuditRow>
    var duplicates: seq<DuplicateRow>

    constructor (artistName: string, auditRows: seq<AuditRow>)
      ensures this.artistName == artistName && this.auditRows == auditRows && duplicates == []
    {
      this.artistName := artistName;
      this.auditRows := auditRows;
      duplicates := [];
    }

    /** `find_similar_fake_artists()`, where `respond(url)` is the response
        the search URL gets. A rejected response raises and changes nothing.
        An accepted response with no artists gives a frame without columns,
        so reading its `id` column raises and changes nothing either. */
    method FindSimilarFakeArtists(respond: string -> PcSearchResponse) returns (outcome: Outcome)
      modifies this
      ensures auditRows == old(auditRows) && artistName == old(artistName)
      ensures var response := respond(DuplicatesSearchUrl);
        if !ResponseAccepted(response) then
          outcome == Raised("Replace cookie in HEADERS") && duplicates == old(duplicates)
        else if response.artists == [] then
          outcome == Raised("KeyError: 'id'") && duplicates == old(duplicates)
        else outcome == Done && duplicates == DuplicateRows(response.artists)
    {
      var response := respond(DuplicatesSearchUrl);
      if !ResponseAccepted(response) {
        return Raised("Replace cookie in HEADERS");
      }
      if response.artists == [] {
        return Raised("KeyError: 'id'");
      }
      duplicates := DuplicateRows(response.artists);
      outcome := Done;
    }

    /** `replace_major_labels()` with the rows of `majors.csv` in order. */
    method ReplaceMajorLabels(majors: seq<(string, string)>)
      modifies this
      ensures auditRows == RelabelledRows(old(auditRows), majors)
      ensures duplicates == old(duplicates) && artistName == old(artistName)
    {
      auditRows := RelabelCompanies(auditRows, majors);
    }

    /** The colour computation of `coloring_rows()`, with the `Red` and
        `Majors` columns of `copyright_ids_netease.csv`. */
    method ColoringRows(red: set<int>, majors: set<int>)
      modifies this
      ensures auditRows == ColouredRows(old(auditRows), red, majors)
      ensures duplicates == old(duplicates) && artistName == old(artistName)
    {
      auditRows := ColourPasses(auditRows, red, majors);
    }
  }
}
