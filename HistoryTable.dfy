/** The history table: the sort-header state machine, the copy-then-sort of
    the records it is handed, the fixed ten-row pagination with its
    Previous/Next clamps and its "Showing X to Y of N" label, and the list
    of selected record ids. */
module HistoryTable {
  import opened Seqs
  import opened Palette
  import opened HistoryFixture
  import opened HistoryArchive

  /** The three keys the sortable headers (Date, Classification, Confidence) pass. */
  datatype SortKey = Date | TumorType | Confidence
  datatype Direction = Asc | Desc
  datatype SortConfig = SortConfig(key: SortKey, direction: Direction)

  /** The table opens sorted by date, newest first. */
  const InitialSort: SortConfig := SortConfig(Date, Desc)

  const ItemsPerPage: nat := 10

  // ---------------------------------------------------------------------
  // Sort header

  /** `handleSort`: the clicked key becomes the sort key; the direction is
      descending only when that key was already sorted ascending. */
  function NextSort(c: SortConfig, key: SortKey): (r: SortConfig)
    ensures r.key == key
    ensures r.direction == Desc <==> c == SortConfig(key, Asc)
  {
    if c.key == key && c.direction == Asc then SortConfig(key, Desc) else SortConfig(key, Asc)
  }

  /** Repeated clicks on one header alternate the direction, starting with
      ascending when the key changes. */
  lemma SortClicksAlternate(c: SortConfig, key: SortKey)
    ensures c.key != key ==> NextSort(c, key) == SortConfig(key, Asc)
    ensures NextSort(NextSort(c, key), key).direction != NextSort(c, key).direction
    ensures NextSort(NextSort(NextSort(c, key), key), key) == NextSort(c, key)
  {
  }

  // ---------------------------------------------------------------------
  // Comparing records by a key

  /** JavaScript's `<` on strings: lexicographic by character code, a
      proper prefix coming first. */
  predicate StrLess(a: string, b: string)
    decreases |a|
  {
    if a == [] then b != []
    else if b == [] then false
    else if a[0] != b[0] then a[0] < b[0]
    else StrLess(a[1..], b[1..])
  }

  lemma {:induction false} StrLessIrreflexive(a: string)
    ensures !StrLess(a, a)
    decreases |a|
  {
    if a != [] {
      StrLessIrreflexive(a[1..]);
    }
  }

  lemma {:induction false} StrLessTransitive(a: string, b: string, c: string)
    requires StrLess(a, b) && StrLess(b, c)
    ensures StrLess(a, c)
    decreases |a|
  {
    if a != [] && a[0] == b[0] && b[0] == c[0] {
      StrLessTransitive(a[1..], b[1..], c[1..]);
    }
  }

  lemma {:induction false} StrLessTotal(a: string, b: string)
    ensures a == b || StrLess(a, b) || StrLess(b, a)
    decreases |a|
  {
    if a != [] && b != [] && a[0] == b[0] {
      StrLessTotal(a[1..], b[1..]);
      if a[1..] == b[1..] {
        assert a == [a[0]] + a[1..] && b == [b[0]] + b[1..];
      }
    }
  }

  /** `a[key] < b[key]` for the key a header sorts by. */
  predicate KeyLess(a: Record, b: Record, k: SortKey) {
    match k
    case Date => a.date < b.date
    case TumorType => StrLess(a.tumorType, b.tumorType)
    case Confidence => a.confidence < b.confidence
  }

  /** `a` may stand before `b` when sorting ascending by `k`. */
  predicate NotAfter(a: Record, b: Record, k: SortKey) {
    !KeyLess(b, a, k)
  }

  /** Any two records can be placed one way or the other. */
  lemma NotAfterTotal(a: Record, b: Record, k: SortKey)
    ensures NotAfter(a, b, k) || NotAfter(b, a, k)
  {
    match k
    case TumorType =>
      if StrLess(a.tumorType, b.tumorType) && StrLess(b.tumorType, a.tumorType) {
        StrLessTransitive(a.tumorType, b.tumorType, a.tumorType);
        StrLessIrreflexive(a.tumorType);
      }
    case _ =>
  }

  lemma NotAfterTransitive(a: Record, b: Record, c: Record, k: SortKey)
    requires NotAfter(a, b, k) && NotAfter(b, c, k)
    ensures NotAfter(a, c, k)
  {
    match k
    case TumorType =>
      StrLessTotal(c.tumorType, b.tumorType);
      if StrLess(c.tumorType, a.tumorType) && StrLess(b.tumorType, c.tumorType) {
        StrLessTransitive(b.tumorType, c.tumorType, a.tumorType);
      }
    case _ =>
  }

  /** `a` may stand before `b` under the sort configuration: the comparator
      puts `a` after `b` exactly when `a[key] > b[key]` (ascending) or
      `a[key] < b[key]` (descending). */
  predicate InOrder(a: Record, b: Record, c: SortConfig) {
    if c.direction == Asc then NotAfter(a, b, c.key) else NotAfter(b, a, c.key)
  }

  lemma InOrderTotal(a: Record, b: Record, c: SortConfig)
    ensures InOrder(a, b, c) || InOrder(b, a, c)
  {
    NotAfterTotal(a, b, c.key);
  }

  lemma InOrderTransitive(a: Record, b: Record, d: Record, c: SortConfig)
    requires InOrder(a, b, c) && InOrder(b, d, c)
    ensures InOrder(a, d, c)
  {
    if c.direction == Asc {
      NotAfterTransitive(a, b, d, c.key);
    } else {
      NotAfterTransitive(d, b, a, c.key);
    }
  }

  /** Every earlier record may stand before every later one. */
  predicate Sorted(s: seq<Record>, c: SortConfig) {
    forall i, j :: 0 <= i < j < |s| ==> InOrder(s[i], s[j], c)
  }

  // ---------------------------------------------------------------------
  // The sort

  /** Places `x` before the first record it may precede. */
  function Insert(x: Record, s: seq<Record>, c: SortConfig): (r: seq<Record>)
    ensures multiset(r) == multiset(s) + multiset{x}
  {
    if s == [] then [x]
    else if InOrder(x, s[0], c) then [x] + s
    else
      assert s == [s[0]] + s[1..];
      [s[0]] + Insert(x, s[1..], c)
  }

  /** `[...data].sort(comparator)`: a new sequence; the records handed in
      are left as they are. */
  function SortRecords(s: seq<Record>, c: SortConfig): (r: seq<Record>)
    ensures multiset(r) == multiset(s)
  {
    if s == [] then []
    else
      assert s == [s[0]] + s[1..];
      Insert(s[0], SortRecords(s[1..], c), c)
  }

  lemma {:induction false} InsertSorted(x: Record, s: seq<Record>, c: SortConfig)
    requires Sorted(s, c)
    ensures Sorted(Insert(x, s, c), c)
  {
    if s == [] {
    } else if InOrder(x, s[0], c) {
      var r := [x] + s;
      forall i, j | 0 <= i < j < |r|
        ensures InOrder(r[i], r[j], c)
      {
        if i == 0 && j > 1 {
          InOrderTransitive(x, s[0], s[j - 1], c);
        }
      }
    } else {
      InOrderTotal(x, s[0], c);
      InsertSorted(x, s[1..], c);
      var tail := Insert(x, s[1..], c);
      var r := [s[0]] + tail;
      forall j | 0 <= j < |tail|
        ensures InOrder(s[0], tail[j], c)
      {
        assert tail[j] in multiset(tail);
        assert tail[j] == x || tail[j] in multiset(s[1..]);
        if tail[j] != x {
          var k :| 0 <= k < |s[1..]| && s[1..][k] == tail[j];
          assert s[k + 1] == tail[j];
        }
      }
      forall i, j | 0 <= i < j < |r|
        ensures InOrder(r[i], r[j], c)
      {
        if i == 0 {
          assert r[j] == tail[j - 1];
        } else {
          assert r[i] == tail[i - 1] && r[j] == tail[j - 1];
        }
      }
    }
  }

  /** The sorted table holds the same records, and every record may stand
      before every later one: non-decreasing by the key when ascending,
      non-increasing when descending. */
  lemma {:induction false} SortRecordsCorrect(s: seq<Record>, c: SortConfig)
    ensures multiset(SortRecords(s, c)) == multiset(s)
    ensures |SortRecords(s, c)| == |s|
    ensures Sorted(SortRecords(s, c), c)
  {
    var r := SortRecords(s, c);
    assert |r| == |multiset(r)| == |multiset(s)| == |s|;
    if s != [] {
      SortRecordsCorrect(s[1..], c);
      InsertSorted(s[0], SortRecords(s[1..], c), c);
    }
  }

  /** The sort, read off the key values it orders. */
  lemma SortedByKey(s: seq<Record>, c: SortConfig, i: nat, j: nat)
    requires i < j < |s|
    ensures |SortRecords(s, c)| == |s|
    ensures c == SortConfig(Confidence, Desc) ==> SortRecords(s, c)[i].confidence >= SortRecords(s, c)[j].confidence
    ensures c == SortConfig(Confidence, Asc) ==> SortRecords(s, c)[i].confidence <= SortRecords(s, c)[j].confidence
    ensures c == SortConfig(Date, Desc) ==> SortRecords(s, c)[i].date >= SortRecords(s, c)[j].date
    ensures c == SortConfig(Date, Asc) ==> SortRecords(s, c)[i].date <= SortRecords(s, c)[j].date
  {
    SortRecordsCorrect(s, c);
  }

  /** Records that are already in order come back unchanged. */
  lemma {:induction false} SortKeepsSorted(s: seq<Record>, c: SortConfig)
    requires Sorted(s, c)
    ensures SortRecords(s, c) == s
  {
    if s != [] {
      assert Sorted(s[1..], c);
      SortKeepsSorted(s[1..], c);
    }
  }

  /** Sorting the fixture by date, newest first (the table's initial
      order), starts with record 1 and ends with record 10. */
  lemma FixtureByDateDescending()
    ensures SortRecords(Fixture, InitialSort) == Fixture
    ensures SortRecords(Fixture, InitialSort)[0].id == 1
    ensures SortRecords(Fixture, InitialSort)[9].id == 10
  {
    FixtureDatesDecrease();
    DecreasingDatesSorted(Fixture);
    SortKeepsSorted(Fixture, InitialSort);
  }

  /** Records with strictly decreasing dates are in the initial order. */
  lemma DecreasingDatesSorted(s: seq<Record>)
    requires forall k :: 0 <= k < |s| - 1 ==> s[k + 1].date < s[k].date
    ensures Sorted(s, InitialSort)
  {
    forall i, j | 0 <= i < j < |s|
      ensures InOrder(s[i], s[j], InitialSort)
    {
      DatesDecrease(s, i, j);
    }
  }

  lemma FixtureDatesDecrease()
    ensures forall k :: 0 <= k < |Fixture| - 1 ==> Fixture[k + 1].date < Fixture[k].date
  {
  }

  lemma {:induction false} DatesDecrease(s: seq<Record>, i: nat, j: nat)
    requires i < j < |s|
    requires forall k :: 0 <= k < |s| - 1 ==> s[k + 1].date < s[k].date
    ensures s[j].date < s[i].date
    decreases j - i
  {
    if j > i + 1 {
      DatesDecrease(s, i, j - 1);
    }
  }

  // ---------------------------------------------------------------------
  // Pagination

  /** `Math.ceil(n / itemsPerPage)`. */
  function TotalPages(n: nat): (t: nat)
    ensures n <= t * ItemsPerPage
    ensures t == 0 || (t - 1) * ItemsPerPage < n
  {
    (n + ItemsPerPage - 1) / ItemsPerPage
  }

  /** `sortedData.slice((page - 1) * itemsPerPage, page * itemsPerPage)`. */
  function PageItems<T>(s: seq<T>, page: int): seq<T>
  {
    Slice(s, (page - 1) * ItemsPerPage, page * ItemsPerPage)
  }

  /** Page `p` holds exactly the records at positions `[(p-1)*10, p*10)`
      that exist, so never more than ten. */
  lemma PageItemsWindow<T>(s: seq<T>, page: int)
    requires page >= 1
    ensures |PageItems(s, page)| <= ItemsPerPage
    ensures forall i :: 0 <= i < |PageItems(s, page)| ==>
      (page - 1) * ItemsPerPage + i < |s| && PageItems(s, page)[i] == s[(page - 1) * ItemsPerPage + i]
    ensures (page - 1) * ItemsPerPage < |s| ==>
      |PageItems(s, page)| == (if page * ItemsPerPage <= |s| then ItemsPerPage else |s| - (page - 1) * ItemsPerPage)
    ensures |s| <= (page - 1) * ItemsPerPage ==> PageItems(s, page) == []
  {
  }

  /** Pages 1 to `k` laid end to end. */
  function FirstPages<T>(s: seq<T>, k: nat): seq<T>
  {
    if k == 0 then [] else FirstPages(s, k - 1) + PageItems(s, k)
  }

  lemma {:induction false} FirstPagesPrefix<T>(s: seq<T>, k: nat)
    ensures FirstPages(s, k) == s[..if k * ItemsPerPage <= |s| then k * ItemsPerPage else |s|]
  {
    if k > 0 {
      FirstPagesPrefix(s, k - 1);
      PageItemsWindow(s, k);
    }
  }

  /** Concatenating pages 1 to `totalPages` gives back the sorted records,
      with nothing left out and nothing repeated. */
  lemma PagesCoverAll<T>(s: seq<T>)
    ensures FirstPages(s, TotalPages(|s|)) == s
  {
    FirstPagesPrefix(s, TotalPages(|s|));
  }

  /** The Previous button: `Math.max(1, currentPage - 1)`. */
  function PrevPage(page: int): (p: int)
    ensures p >= 1
    ensures page > 1 ==> p == page - 1
  {
    if page - 1 < 1 then 1 else page - 1
  }

  /** The Next button as written: `Math.min(totalPages, currentPage + 1)`. */
  function NextPageAsWritten(page: int, total: nat): (p: int)
    ensures p <= total
    ensures page < total ==> p == page + 1
  {
    if total < page + 1 then total else page + 1
  }

  /** With no records there are no pages, the Next button stays enabled
      (`currentPage === totalPages` is `1 === 0`), and a click moves the
      table to page 0, whose label reads "Showing -9 to 0 of 0 results". */
  lemma NextOnEmptyTableGoesToPageZero()
    ensures TotalPages(0) == 0
    ensures NextPageAsWritten(1, TotalPages(0)) == 0
    ensures RangeLabel(0, 0) == Range(-9, 0, 0)
  {
  }

  /** The Next button with the same lower clamp the Previous button has. */
  function NextPage(page: int, total: nat): (p: int)
    ensures 1 <= p
    ensures total >= 1 && page >= 1 ==> p <= total
    ensures 1 <= page < total ==> p == page + 1
  {
    var q := if total < page + 1 then total else page + 1;
    if q < 1 then 1 else q
  }

  /** The corrected button agrees with the written one whenever there is a
      page to stay on. */
  lemma NextPageAgrees(page: int, total: nat)
    requires total >= 1 && page >= 1
    ensures NextPage(page, total) == NextPageAsWritten(page, total)
  {
  }

  /** The page numbers the number buttons offer: 1 to `min(5, totalPages)`. */
  function PageButtons(total: nat): (ps: seq<int>)
    ensures |ps| == if total < 5 then total else 5
    ensures forall i :: 0 <= i < |ps| ==> ps[i] == i + 1
  {
    var n := if total < 5 then total else 5;
    seq(n, i => i + 1)
  }

  /** "Showing `first` to `last` of `total` results". */
  datatype Range = Range(first: int, last: int, total: nat)

  function RangeLabel(page: int, n: nat): (r: Range)
  {
    var hi := page * ItemsPerPage;
    Range((page - 1) * ItemsPerPage + 1, if hi < n then hi else n, n)
  }

  /** On any existing page the label names exactly the 1-based positions of
      the rows shown: it counts the rows, and its ends are the first and
      last row. */
  lemma RangeLabelMatchesPage<T>(s: seq<T>, page: int)
    requires 1 <= page <= TotalPages(|s|)
    ensures var r := RangeLabel(page, |s|);
      && r.total == |s|
      && r.last - r.first + 1 == |PageItems(s, page)|
      && PageItems(s, page)[0] == s[r.first - 1]
      && PageItems(s, page)[|PageItems(s, page)| - 1] == s[r.last - 1]
  {
    PageItemsWindow(s, page);
  }

  // ---------------------------------------------------------------------
  // Confidence colour

  /** `getConfidenceColor` of the table. */
  function ConfidenceTone(confidence: real): Tone
  {
    if confidence >= 90.0 then Success
    else if confidence >= 70.0 then Warning
    else Error
  }

  /** The colour uses the same cut-offs as the filter's confidence bands. */
  lemma ConfidenceToneMatchesBands(confidence: real)
    ensures ConfidenceTone(confidence) == Success <==> HighBand(confidence)
    ensures ConfidenceTone(confidence) == Warning <==> MediumBand(confidence)
    ensures ConfidenceTone(confidence) == Error <==> LowBand(confidence)
  {
  }

  // ---------------------------------------------------------------------
  // Selection

  /** `selectedItems.filter(item => item !== id)`. */
  function Deselect(selected: seq<int>, id: int): seq<int>
  {
    Keep(selected, x => x != id)
  }

  /** Deselecting removes every occurrence of the id and keeps every other
      id, in its order. */
  lemma DeselectMeaning(selected: seq<int>, id: int)
    ensures id !in Deselect(selected, id)
    ensures IsSubsequence(Deselect(selected, id), selected)
    ensures forall x :: x in selected && x != id ==> x in Deselect(selected, id)
  {
    KeepMembers(selected, x => x != id);
    KeepIsSubsequence(selected, x => x != id);
  }

  /** The table's state. `data` is the list the page hands in. */
  class Table {
    var data: seq<Record>
    var sortConfig: SortConfig
    var selectedItems: seq<int>
    var currentPage: int

    /** What every handler keeps, as written: the page is never negative
        (Next as written can reach page 0, and nothing goes lower). */
    predicate Valid()
      reads this
    {
      currentPage >= 0
    }

    /** What the page means to keep: the table shows page 1 or later. */
    predicate OnPage()
      reads this
    {
      currentPage >= 1
    }

    constructor (data: seq<Record>)
      ensures Valid() && OnPage()
      ensures this.data == data && sortConfig == InitialSort
      ensures selectedItems == [] && currentPage == 1
    {
      this.data := data;
      sortConfig := InitialSort;
      selectedItems := [];
      currentPage := 1;
    }

    /** The page re-renders the table with new records: only `data`
        changes; the page number is not reset. */
    method ReceiveData(d: seq<Record>)
      requires Valid()
      modifies this`data
      ensures Valid() && data == d
    {
      data := d;
    }

    function SortedData(): seq<Record>
      reads this
    {
      SortRecords(data, sortConfig)
    }

    function PaginatedData(): seq<Record>
      reads this
    {
      PageItems(SortedData(), currentPage)
    }

    function PageCount(): nat
      reads this
    {
      TotalPages(|data|)
    }

    function Label(): Range
      reads this
    {
      RangeLabel(currentPage, |data|)
    }

    /** The header checkbox: checked when the selection is as long as the data. */
    function HeaderChecked(): bool
      reads this
    {
      |selectedItems| == |data|
    }

    /** The bulk-action bar is shown while something is selected. */
    function BulkBarShown(): bool
      reads this
    {
      |selectedItems| > 0
    }

    method HandleSort(key: SortKey)
      requires Valid()
      modifies this`sortConfig
      ensures Valid()
      ensures sortConfig == NextSort(old(sortConfig), key)
    {
      var direction := Asc;
      if sortConfig.key == key && sortConfig.direction == Asc {
        direction := Desc;
      }
      sortConfig := SortConfig(key, direction);
    }

    /** Checking the header selects the ids of all the records handed in,
        on every page; unchecking it empties the selection. */
    method HandleSelectAll(checked: bool)
      requires Valid()
      modifies this`selectedItems
      ensures Valid()
      ensures selectedItems == if checked then Ids(data) else []
      ensures checked ==> HeaderChecked()
    {
      if checked {
        selectedItems := Ids(data);
      } else {
        selectedItems := [];
      }
    }

    /** Checking a row appends its id; unchecking removes every copy of it. */
    method HandleSelectItem(id: int, checked: bool)
      requires Valid()
      modifies this`selectedItems
      ensures Valid()
      ensures checked ==> selectedItems == old(selectedItems) + [id]
      ensures !checked ==> selectedItems == Deselect(old(selectedItems), id)
      ensures !checked ==> id !in selectedItems
    {
      if checked {
        selectedItems := selectedItems + [id];
      } else {
        selectedItems := Deselect(selectedItems, id);
        DeselectMeaning(old(selectedItems), id);
      }
    }

    method HandlePrevious()
      requires Valid()
      modifies this`currentPage
      ensures Valid() && OnPage()
      ensures currentPage == PrevPage(old(currentPage))
    {
      currentPage := PrevPage(currentPage);
    }

    /** The Next button as written: on a table with no rows it moves to
        page 0, off every page. */
    method HandleNextAsWritten()
      requires Valid()
      modifies this`currentPage
      ensures Valid()
      ensures currentPage == NextPageAsWritten(old(currentPage), PageCount())
      ensures PageCount() >= 1 ==> OnPage() && currentPage <= PageCount()
      ensures PageCount() == 0 ==> currentPage == 0
    {
      currentPage := if PageCount() < currentPage + 1 then PageCount() else currentPage + 1;
    }

    /** The Next button with the lower clamp that keeps the page at 1 or later. */
    method HandleNext()
      requires Valid()
      modifies this`currentPage
      ensures Valid() && OnPage()
      ensures currentPage == NextPage(old(currentPage), PageCount())
      ensures PageCount() >= 1 ==> currentPage <= PageCount()
    {
      currentPage := NextPage(currentPage, PageCount());
    }

    /** A numbered page button. */
    method HandlePageButton(page: int)
      requires Valid()
      requires page in PageButtons(PageCount())
      modifies this`currentPage
      ensures Valid() && OnPage() && currentPage == page
    {
      currentPage := page;
    }
  }

  /** A table handed no records, with Next clicked once as written: the
      page becomes 0. */
  method EmptyTableNextAsWritten() returns (page: int, shown: Range)
    ensures page == 0 && shown == Range(-9, 0, 0)
  {
    var t := new Table([]);
    t.HandleNextAsWritten();
    page := t.currentPage;
    shown := t.Label();
  }

  /** The same click with the corrected Next: the table stays on page 1. */
  method EmptyTableNext() returns (page: int)
    ensures page == 1
  {
    var t := new Table([]);
    t.HandleNext();
    page := t.currentPage;
  }
}
