/** The analysis history page: the ten-record fixture, the conjunctive
    filter it runs on every criteria change, and the clear action. */
module HistoryArchive {
  import opened Seqs
  import opened Text
  import opened Options
  import opened FilterControls
  import opened HistoryFixture

  /** `data.map(item => item.id)`. */
  function Ids(rs: seq<Record>): (ids: seq<int>)
    ensures |ids| == |rs|
    ensures forall i :: 0 <= i < |rs| ==> ids[i] == rs[i].id
  {
    if rs == [] then [] else [rs[0].id] + Ids(rs[1..])
  }

  /** The lower-cased query occurs in the lower-cased patient id, file name or notes. */
  predicate SearchHit(r: Record, query: string) {
    Contains(Lower(r.patientId), query) ||
    Contains(Lower(r.filename), query) ||
    Contains(Lower(r.notes), query)
  }

  predicate HighBand(c: real) { c >= 90.0 }
  predicate MediumBand(c: real) { c >= 70.0 && c < 90.0 }
  predicate LowBand(c: real) { c < 70.0 }

  /** The four criteria, each true when it imposes no constraint. An
      unrecognised confidence level falls through the switch and keeps all. */
  predicate SearchOk(r: Record, f: Filters) {
    f.searchQuery == "" || SearchHit(r, Lower(f.searchQuery))
  }

  predicate TumorTypeOk(r: Record, f: Filters) {
    f.tumorType == "all" || r.tumorType == f.tumorType
  }

  predicate ConfidenceOk(r: Record, f: Filters) {
    if f.confidenceLevel == "high" then HighBand(r.confidence)
    else if f.confidenceLevel == "medium" then MediumBand(r.confidence)
    else if f.confidenceLevel == "low" then LowBand(r.confidence)
    else true
  }

  predicate StatusOk(r: Record, f: Filters) {
    f.status == "all" || r.status == f.status
  }

  predicate Matches(r: Record, f: Filters) {
    SearchOk(r, f) && TumorTypeOk(r, f) && ConfidenceOk(r, f) && StatusOk(r, f)
  }

  /** The records that meet every active criterion. */
  function FilterRecords(rs: seq<Record>, f: Filters): seq<Record>
  {
    Keep(rs, x => Matches(x, f))
  }

  /** The filtered records keep the fixture's order, every one of them
      matches, and a record is kept exactly when it matches. */
  lemma FilterRecordsMeaning(rs: seq<Record>, f: Filters)
    ensures |FilterRecords(rs, f)| <= |rs|
    ensures IsSubsequence(FilterRecords(rs, f), rs)
    ensures forall i :: 0 <= i < |FilterRecords(rs, f)| ==> Matches(FilterRecords(rs, f)[i], f)
    ensures forall i :: 0 <= i < |rs| ==> (rs[i] in FilterRecords(rs, f) <==> Matches(rs[i], f))
  {
    KeepIsSubsequence(rs, x => Matches(x, f));
    KeepMembers(rs, x => Matches(x, f));
  }

  /** Every confidence value lies in exactly one band; 90 is high, 70 medium. */
  lemma BandsPartition(c: real)
    ensures HighBand(c) || MediumBand(c) || LowBand(c)
    ensures !(HighBand(c) && MediumBand(c)) && !(HighBand(c) && LowBand(c)) && !(MediumBand(c) && LowBand(c))
    ensures HighBand(90.0) && MediumBand(70.0) && !MediumBand(90.0) && !LowBand(70.0)
  {
  }

  /** The name the confidence drop-down gives the band a confidence lies in. */
  function BandName(c: real): string
  {
    if HighBand(c) then "high" else if MediumBand(c) then "medium" else "low"
  }

  /** Every option of the confidence drop-down other than 'all' is one the
      filter's switch recognises: it keeps a record exactly when the
      record's confidence lies in the band of that name, so none of them
      falls through to keeping everything. */
  lemma OfferedConfidenceSelectsBand(r: Record, f: Filters)
    requires f.confidenceLevel in ConfidenceOptions && f.confidenceLevel != "all"
    ensures ConfidenceOk(r, f) <==> BandName(r.confidence) == f.confidenceLevel
  {
    assert ConfidenceOptions == ["all", "high", "medium", "low"];
  }

  /** Conversely, every confidence lies in the band of exactly one offered
      option, which is not 'all'. */
  lemma EveryBandOffered(c: real)
    ensures BandName(c) in ConfidenceOptions && BandName(c) != "all"
  {
    assert ConfidenceOptions[1] == "high" && ConfidenceOptions[2] == "medium" && ConfidenceOptions[3] == "low";
  }

  /** A level the drop-down does not offer falls through the switch and
      keeps every record. */
  lemma UnofferedConfidenceKeepsAll(r: Record, f: Filters)
    requires f.confidenceLevel !in ConfidenceOptions
    ensures ConfidenceOk(r, f)
  {
    assert ConfidenceOptions[1] == "high" && ConfidenceOptions[2] == "medium" && ConfidenceOptions[3] == "low";
  }

  /** The date-range criterion is never consulted. */
  lemma FilterIgnoresDateRange(rs: seq<Record>, f: Filters, d: string)
    ensures FilterRecords(rs, f.(dateRange := d)) == FilterRecords(rs, f)
  {
    var g := f.(dateRange := d);
    assert g.searchQuery == f.searchQuery && g.tumorType == f.tumorType;
    assert g.confidenceLevel == f.confidenceLevel && g.status == f.status;
    forall x | x in rs
      ensures Matches(x, g) == Matches(x, f)
    {
      assert SearchOk(x, g) == SearchOk(x, f);
    }
    KeepExt(rs, x => Matches(x, g), x => Matches(x, f));
  }

  /** The controls' initial (and cleared) criteria keep every record. */
  lemma FilterInitialKeepsAll(rs: seq<Record>)
    ensures FilterRecords(rs, InitialFilters) == rs
  {
    KeepAll(rs, x => Matches(x, InitialFilters));
  }

  /** Filtering on already-filtered records with the same criteria changes nothing. */
  lemma FilterIdempotent(rs: seq<Record>, f: Filters)
    ensures FilterRecords(FilterRecords(rs, f), f) == FilterRecords(rs, f)
  {
    KeepIdempotent(rs, x => Matches(x, f));
  }

  /** The four filter passes, one per criterion, as predicates on records. */
  function SearchPass(f: Filters): Record -> bool { x => SearchOk(x, f) }
  function TumorTypePass(f: Filters): Record -> bool { x => TumorTypeOk(x, f) }
  function ConfidencePass(f: Filters): Record -> bool { x => ConfidenceOk(x, f) }
  function StatusPass(f: Filters): Record -> bool { x => StatusOk(x, f) }

  /** Applying the four criteria as four passes gives the conjunctive filter,
      in the source's order and in the reverse order alike. */
  lemma PassOrderIrrelevant(rs: seq<Record>, f: Filters)
    ensures Keep(Keep(Keep(Keep(rs, SearchPass(f)), TumorTypePass(f)), ConfidencePass(f)), StatusPass(f))
            == FilterRecords(rs, f)
    ensures Keep(Keep(Keep(Keep(rs, StatusPass(f)), ConfidencePass(f)), TumorTypePass(f)), SearchPass(f))
            == FilterRecords(rs, f)
  {
    KeepFour(rs, SearchPass(f), TumorTypePass(f), ConfidencePass(f), StatusPass(f), x => Matches(x, f));
    KeepFour(rs, StatusPass(f), ConfidencePass(f), TumorTypePass(f), SearchPass(f), x => Matches(x, f));
  }

  /** The successive filter passes `handleFiltersChange` runs on a copy
      of the records, each skipped when its criterion is inactive. */
  method ApplyFilters(data: seq<Record>, filters: Filters) returns (filtered: seq<Record>)
    ensures filtered == FilterRecords(data, filters)
  {
    filtered := data;
    if filters.searchQuery != "" {
      var query := Lower(filters.searchQuery);
      filtered := Keep(filtered, (r: Record) => SearchHit(r, query));
      KeepExt(data, (r: Record) => SearchHit(r, query), SearchPass(filters));
    } else {
      KeepAll(data, SearchPass(filters));
    }
    ghost var after1 := Keep(data, SearchPass(filters));
    assert filtered == after1;
    KeepMembers(data, SearchPass(filters));

    if filters.tumorType != "all" {
      filtered := Keep(filtered, (r: Record) => r.tumorType == filters.tumorType);
      KeepExt(after1, (r: Record) => r.tumorType == filters.tumorType, TumorTypePass(filters));
    } else {
      KeepAll(after1, TumorTypePass(filters));
    }
    ghost var after2 := Keep(after1, TumorTypePass(filters));
    assert filtered == after2;
    KeepMembers(after1, TumorTypePass(filters));

    if filters.confidenceLevel == "high" {
      filtered := Keep(filtered, (r: Record) => r.confidence >= 90.0);
      KeepExt(after2, (r: Record) => r.confidence >= 90.0, ConfidencePass(filters));
    } else if filters.confidenceLevel == "medium" {
      filtered := Keep(filtered, (r: Record) => r.confidence >= 70.0 && r.confidence < 90.0);
      KeepExt(after2, (r: Record) => r.confidence >= 70.0 && r.confidence < 90.0, ConfidencePass(filters));
    } else if filters.confidenceLevel == "low" {
      filtered := Keep(filtered, (r: Record) => r.confidence < 70.0);
      KeepExt(after2, (r: Record) => r.confidence < 70.0, ConfidencePass(filters));
    } else {
      KeepAll(after2, ConfidencePass(filters));
    }
    ghost var after3 := Keep(after2, ConfidencePass(filters));
    assert filtered == after3;
    KeepMembers(after2, ConfidencePass(filters));

    if filters.status != "all" {
      filtered := Keep(filtered, (r: Record) => r.status == filters.status);
      KeepExt(after3, (r: Record) => r.status == filters.status, StatusPass(filters));
    } else {
      KeepAll(after3, StatusPass(filters));
    }
    assert filtered == Keep(after3, StatusPass(filters));

    PassOrderIrrelevant(data, filters);
  }

  /** The page's state: the records handed to the table and the criteria last received. */
  class ArchivePage {
    var filteredData: seq<Record>
    /** `None` is the empty object `{}` the page holds before any change and after a clear. */
    var currentFilters: Option<Filters>

    /** The state after the mount effect has copied the fixture in. */
    constructor ()
      ensures filteredData == Fixture && currentFilters == None
    {
      filteredData := Fixture;
      currentFilters := None;
    }

    /** Recomputes the visible records from the full fixture (never from the
        previous result). */
    method HandleFiltersChange(filters: Filters)
      modifies this
      ensures currentFilters == Some(filters)
      ensures filteredData == FilterRecords(Fixture, filters)
    {
      currentFilters := Some(filters);
      filteredData := ApplyFilters(Fixture, filters);
    }

    /** Restores the full fixture and empties the remembered criteria. */
    method HandleClearFilters()
      modifies this
      ensures filteredData == Fixture && currentFilters == None
    {
      filteredData := Fixture;
      currentFilters := None;
    }
  }

  /** With only the confidence criterion active, the filter is that band's pass. */
  lemma OnlyConfidence(rs: seq<Record>, f: Filters)
    requires f.searchQuery == "" && f.tumorType == "all" && f.status == "all"
    ensures FilterRecords(rs, f) == Keep(rs, ConfidencePass(f))
  {
    KeepExt(rs, x => Matches(x, f), ConfidencePass(f));
  }

  /** With only a search query, the filter is the search pass. */
  lemma OnlySearch(rs: seq<Record>, f: Filters)
    requires f.tumorType == "all" && f.confidenceLevel == "all" && f.status == "all"
    ensures FilterRecords(rs, f) == Keep(rs, SearchPass(f))
  {
    KeepExt(rs, x => Matches(x, f), SearchPass(f));
  }

  /** The "high" band, with no other criterion active, keeps exactly
      records 1, 3, 4, 7 and 10 of the fixture. */
  lemma HighBandSpotCheck(f: Filters)
    requires f.confidenceLevel == "high"
    requires f.searchQuery == "" && f.tumorType == "all" && f.status == "all"
    ensures Ids(FilterRecords(Fixture, f)) == [1, 3, 4, 7, 10]
  {
    OnlyConfidence(Fixture, f);
    HighBandOnFixture(f);
  }

  lemma HighBandOnFixture(f: Filters)
    requires f.confidenceLevel == "high"
    ensures Ids(Keep(Fixture, ConfidencePass(f))) == [1, 3, 4, 7, 10]
  {
    var p := ConfidencePass(f);
    assert Keep(Fixture[10..], p) == [];
    KeepSuffixStep(Fixture, 9, p);
    KeepSuffixStep(Fixture, 8, p);
    KeepSuffixStep(Fixture, 7, p);
    KeepSuffixStep(Fixture, 6, p);
    KeepSuffixStep(Fixture, 5, p);
    KeepSuffixStep(Fixture, 4, p);
    KeepSuffixStep(Fixture, 3, p);
    KeepSuffixStep(Fixture, 2, p);
    KeepSuffixStep(Fixture, 1, p);
    KeepSuffixStep(Fixture, 0, p);
    assert Fixture[0..] == Fixture;
  }

  /** A query that lower-cases to "pt-2024-008" (so "PT-2024-008" too), with
      no other criterion active, keeps only record 8. */
  lemma SearchSpotCheck(f: Filters)
    requires Lower(f.searchQuery) == "pt-2024-008"
    requires f.tumorType == "all" && f.confidenceLevel == "all" && f.status == "all"
    ensures Ids(FilterRecords(Fixture, f)) == [8]
  {
    OnlySearch(Fixture, f);
    SearchOnFixture(f);
  }

  lemma SearchOnFixture(f: Filters)
    requires Lower(f.searchQuery) == "pt-2024-008"
    ensures Ids(Keep(Fixture, SearchPass(f))) == [8]
  {
    var p := SearchPass(f);
    var q := Lower(f.searchQuery);
    assert f.searchQuery != "";
    Rec1Unlike8(); Rec2Unlike8(); Rec3Unlike8(); Rec4Unlike8(); Rec5Unlike8();
    Rec6Unlike8(); Rec7Unlike8(); Rec9Unlike8(); Rec10Unlike8();
    forall i | 0 <= i < |Fixture| && i != 7
      ensures !SearchHit(Fixture[i], q)
    {
      MissesQuery(Fixture[i], q);
    }
    RecordEightHits(Fixture[7], q);
    forall i | 0 <= i < |Fixture|
      ensures p(Fixture[i]) <==> i == 7
    {
      SearchPassIsHit(f, Fixture[i]);
    }
    KeepExactlyOne(Fixture, p, 7);
  }

  /** With a non-empty query, the search pass is the search hit on the lower-cased query. */
  lemma SearchPassIsHit(f: Filters, r: Record)
    requires f.searchQuery != ""
    ensures SearchPass(f)(r) == SearchHit(r, Lower(f.searchQuery))
  {
  }

  lemma RecordEightHits(r: Record, q: string)
    requires r.patientId == "PT-2024-008" && q == "pt-2024-008"
    ensures SearchHit(r, q)
  {
    assert Lower(r.patientId) == q;
    assert q <= Lower(r.patientId);
  }

  /** A record whose file name and notes lack the query's '0', and whose
      patient id has the query's length but differs from it at the last
      position, is not a search hit. */
  lemma MissesQuery(r: Record, q: string)
    requires q == "pt-2024-008" && Unlike8(r)
    ensures !SearchHit(r, q)
  {
    SameLengthContains(Lower(r.patientId), q);
    assert Lower(r.patientId)[10] != q[10];
    assert '0' !in Lower(r.filename);
    assert '0' !in Lower(r.notes);
    MissingCharNotContained(Lower(r.filename), q, '0');
    MissingCharNotContained(Lower(r.notes), q, '0');
  }
}
