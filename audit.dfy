/** The newer audit generator (`audit_generator.py`): the same royalty bands,
    label rewriting and colour passes as the older copy, with the duplicate
    profiles taken from artist resolution by leaving out the audited artist. */
module Audit {
  import opened Wrappers
  import opened Text
  import Misc
  import FindArtists
  import LegacyAudit

  /** `ARTIST_ID`, the audited artist. */
  const ArtistId: int := 185871

  /** `NETEASE_PROFILE`, the audited artist's profile. */
  const NeteaseProfile: string := "https://music.163.com/#/artist?id=185871"

  /** The configured profile and the configured id name the same artist. */
  lemma ProfileNamesArtistId()
    ensures Misc.GetIdFromNeteaseUrl(NeteaseProfile) == Misc.Id(IntToString(ArtistId))
  {
    assert NatToString(1) == "1" && NatToString(18) == "18" && NatToString(185) == "185";
    assert NatToString(1858) == "1858" && NatToString(18587) == "18587";
    assert IntToString(ArtistId) == "185871";
    assert NeteaseProfile == LegacyAudit.ProfileLink(ArtistId);
    LegacyAudit.ProfileLinkRoundTrip(ArtistId);
  }

  /** `estimated_royalties(comment_count)` as written: the open-ended band
      calls `math.floor`, but `math` is never imported, so every count from
      35000 up raises a `NameError`. */
  function EstimatedRoyalties(c: LegacyAudit.CommentCount): (r: Result<string, string>)
    ensures r.Failure? <==> c.Count? && c.n >= 35000
    ensures r.Success? ==> r.value == LegacyAudit.EstimatedRoyalties(c)
  {
    if c.Count? && c.n >= 35000 then Failure("NameError: name 'math' is not defined")
    else Success(LegacyAudit.EstimatedRoyalties(c))
  }

  /** The fixed bands agree with the older copy verbatim: exactly 1000 gives
      `"$1000+"`, and below 1000 or without a count it is `"N/A"`. */
  lemma FixedBandsMatchLegacy()
    ensures EstimatedRoyalties(LegacyAudit.Count(1000)) == Success("$1000+")
    ensures EstimatedRoyalties(LegacyAudit.Count(999)) == Success("N/A")
    ensures EstimatedRoyalties(LegacyAudit.NotAvailable) == Success("N/A")
    ensures EstimatedRoyalties(LegacyAudit.Count(34999)) == Success("$30,000 - $85,000")
  {
  }

  /** 40000 comments raise here, where the older copy answers
      `"$40000 - $105000.0"`. */
  lemma OpenEndedBandRaises()
    ensures EstimatedRoyalties(LegacyAudit.Count(40000)).Failure?
    ensures LegacyAudit.EstimatedRoyalties(LegacyAudit.Count(40000)) == "$40000 - $105000.0"
  {
    LegacyAudit.EstimatedRoyaltiesAt40000();
  }

  /** The estimate with `math` imported, which is the older copy's: from 35000
      up the upper end is a float above the count. */
  function EstimatedRoyaltiesCorrected(c: LegacyAudit.CommentCount): (r: string)
    ensures EstimatedRoyalties(c).Success? ==> r == EstimatedRoyalties(c).value
    ensures c.Count? && c.n >= 35000 ==>
      r == "$" + IntToString(c.n) + " - $" + LegacyAudit.FloatText(LegacyAudit.UpperEstimate(c.n))
      && LegacyAudit.UpperEstimate(c.n) > c.n
  {
    if c.Count? && c.n >= 35000 then
      LegacyAudit.UpperEstimateBounds(c.n);
      LegacyAudit.EstimatedRoyalties(c)
    else LegacyAudit.EstimatedRoyalties(c)
  }

  /** `all_artists_df[all_artists_df["artist_id"] != artist_id]`. */
  function Duplicates(all: seq<FindArtists.ArtistEntry>, artistId: int): (r: seq<FindArtists.ArtistEntry>)
    ensures |r| <= |all|
    ensures forall k :: 0 <= k < |r| ==> r[k].artistId != artistId && r[k] in all
    ensures forall i :: 0 <= i < |all| && all[i].artistId != artistId ==> all[i] in r
    decreases |all|
  {
    if all == [] then []
    else
      var n := |all| - 1;
      var before := Duplicates(all[..n], artistId);
      assert forall k :: 0 <= k < |before| ==> before[k] in all by {
        forall k | 0 <= k < |before| ensures before[k] in all {
          var i :| 0 <= i < n && all[..n][i] == before[k];
          assert all[i] == all[..n][i];
        }
      }
      assert forall i :: 0 <= i < n && all[i].artistId != artistId ==> all[i] in before by {
        forall i | 0 <= i < n && all[i].artistId != artistId ensures all[i] in before {
          assert all[..n][i] == all[i];
        }
      }
      before + (if all[n].artistId != artistId then [all[n]] else [])
  }

  /** The filter keeps the order: it acts on the two parts of a list
      separately. */
  lemma {:induction false} DuplicatesAppend(a: seq<FindArtists.ArtistEntry>, b: seq<FindArtists.ArtistEntry>,
                                            artistId: int)
    ensures Duplicates(a + b, artistId) == Duplicates(a, artistId) + Duplicates(b, artistId)
    decreases |b|
  {
    if b == [] {
      assert a + b == a;
    } else {
      var n := |b| - 1;
      assert (a + b)[..|a + b| - 1] == a + b[..n];
      assert (a + b)[|a + b| - 1] == b[n];
      DuplicatesAppend(a, b[..n], artistId);
    }
  }

  /** Without the audited artist among them, every artist is a duplicate. */
  lemma {:induction false} DuplicatesWithoutArtist(all: seq<FindArtists.ArtistEntry>, artistId: int)
    requires forall i :: 0 <= i < |all| ==> all[i].artistId != artistId
    ensures Duplicates(all, artistId) == all
    decreases |all|
  {
    if all != [] {
      DuplicatesWithoutArtist(all[..|all| - 1], artistId);
      assert all[..|all| - 1] + [all[|all| - 1]] == all;
    }
  }

  /** `seperate_similar_fake_artists` on an empty artist list: the frame
      `from_dict([])` has no columns, so reading `artist_id` raises. */
  const MissingArtistIdColumn: string := "KeyError: 'artist_id'"

  /** The object of `audit_generator.py`. `auditRows` stands for the frame
      the song pipeline builds, which is taken as given. */
  class AuditGenerator {
    var artistName: string
    var artistId: int
    var auditRows: seq<LegacyAudit.AuditRow>
    var duplicates: seq<FindArtists.ArtistEntry>

    /** The fields `__init__` sets before it separates the artists. */
    constructor (artistName: string, auditRows: seq<LegacyAudit.AuditRow>)
      ensures this.artistName == artistName && artistId == ArtistId && this.auditRows == auditRows
      ensures duplicates == []
    {
      this.artistName := artistName;
      artistId := ArtistId;
      this.auditRows := auditRows;
      duplicates := [];
    }

    /** `seperate_similar_fake_artists(all_artists_df)`: every artist but the
        audited one; an empty list raises and changes nothing. */
    method SeperateSimilarFakeArtists(allArtists: seq<FindArtists.ArtistEntry>) returns (outcome: Outcome)
      modifies this
      ensures allArtists == [] ==> outcome == Raised(MissingArtistIdColumn) && duplicates == old(duplicates)
      ensures allArtists != [] ==> outcome == Done && duplicates == Duplicates(allArtists, artistId)
      ensures artistId == old(artistId) && auditRows == old(auditRows) && artistName == old(artistName)
    {
      if allArtists == [] {
        return Raised(MissingArtistIdColumn);
      }
      duplicates := Duplicates(allArtists, artistId);
      outcome := Done;
    }

    /** `replace_major_labels()` with the rows of `majors.csv` in order. */
    method ReplaceMajorLabels(majors: seq<(string, string)>)
      modifies this
      ensures auditRows == LegacyAudit.RelabelledRows(old(auditRows), majors)
      ensures artistId == old(artistId) && duplicates == old(duplicates) && artistName == old(artistName)
    {
      auditRows := LegacyAudit.RelabelCompanies(auditRows, majors);
    }

    /** The colour computation of `save_audit_as_xlsx()`, with the `Red` and
        `Majors` columns of `copyright_ids_netease.csv`. */
    method SaveAuditAsXlsx(red: set<int>, majors: set<int>)
      modifies this
      ensures auditRows == LegacyAudit.ColouredRows(old(auditRows), red, majors)
      ensures artistId == old(artistId) && duplicates == old(duplicates) && artistName == old(artistName)
    {
      auditRows := LegacyAudit.ColourPasses(auditRows, red, majors);
    }
  }

  /** `AuditGenerator(artist_name)`, where `allArtists` is what
      `get_all_artists_for_name(NETEASE_PROFILE)` returns: the object exists
      only when separating the artists does not raise. */
  method NewAuditGenerator(artistName: string, auditRows: seq<LegacyAudit.AuditRow>,
                           allArtists: seq<FindArtists.ArtistEntry>)
    returns (g: AuditGenerator?, outcome: Outcome)
    ensures allArtists == [] <==> g == null
    ensures allArtists == [] ==> outcome == Raised(MissingArtistIdColumn)
    ensures g != null ==> fresh(g) && outcome == Done
    ensures g != null ==> g.artistName == artistName && g.artistId == ArtistId && g.auditRows == auditRows
    ensures g != null ==> g.duplicates == Duplicates(allArtists, ArtistId)
  {
    g := new AuditGenerator(artistName, auditRows);
    outcome := g.SeperateSimilarFakeArtists(allArtists);
    if outcome.Raised? {
      g := null;
    }
  }
}
