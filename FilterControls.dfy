/** The filter bar above the history table: the criteria object it keeps,
    the single-key update it reports to the page, the clear action, and the
    "has active filters" test that shows the Clear button. */
module FilterControls {

  /** The criteria object; every field is the string the controls hold. */
  datatype Filters = Filters(
    searchQuery: string,
    dateRange: string,
    tumorType: string,
    confidenceLevel: string,
    status: string)

  datatype FilterKey = SearchQuery | DateRange | TumorType | ConfidenceLevel | Status

  /** What the controls report to the page. */
  datatype Callback = FiltersChanged(filters: Filters) | FiltersCleared

  /** The state the controls start in, and the state a clear restores. */
  const InitialFilters: Filters := Filters("", "all", "all", "all", "all")

  /** The option values each drop-down offers. */
  const DateRangeOptions: seq<string> := ["all", "today", "week", "month", "quarter", "year", "custom"]
  const TumorTypeOptions: seq<string> := ["all", "glioma", "meningioma", "pituitary", "no_tumor"]
  const ConfidenceOptions: seq<string> := ["all", "high", "medium", "low"]
  const StatusOptions: seq<string> := ["all", "completed", "processing", "failed", "pending"]

  function Get(f: Filters, k: FilterKey): string {
    match k
    case SearchQuery => f.searchQuery
    case DateRange => f.dateRange
    case TumorType => f.tumorType
    case ConfidenceLevel => f.confidenceLevel
    case Status => f.status
  }

  /** `{ ...filters, [key]: value }`. */
  function With(f: Filters, k: FilterKey, v: string): (r: Filters)
    ensures Get(r, k) == v
    ensures forall k' :: k' != k ==> Get(r, k') == Get(f, k')
  {
    match k
    case SearchQuery => f.(searchQuery := v)
    case DateRange => f.(dateRange := v)
    case TumorType => f.(tumorType := v)
    case ConfidenceLevel => f.(confidenceLevel := v)
    case Status => f.(status := v)
  }

  /** `Object.values(filters)`, in the order the fields were written. */
  function Values(f: Filters): (vs: seq<string>)
    ensures forall k :: Get(f, k) in vs
    ensures forall i :: 0 <= i < |vs| ==> exists k :: vs[i] == Get(f, k)
  {
    var vs := [f.searchQuery, f.dateRange, f.tumorType, f.confidenceLevel, f.status];
    assert vs[0] == Get(f, SearchQuery) && vs[1] == Get(f, DateRange) && vs[2] == Get(f, TumorType);
    assert vs[3] == Get(f, ConfidenceLevel) && vs[4] == Get(f, Status);
    vs
  }

  predicate IsActiveValue(v: string) {
    v != "all" && v != ""
  }

  /** `values.some(value => value !== 'all' && value !== '')`. */
  predicate SomeActive(vs: seq<string>) {
    if vs == [] then false else IsActiveValue(vs[0]) || SomeActive(vs[1..])
  }

  lemma {:induction false} SomeActiveExists(vs: seq<string>)
    ensures SomeActive(vs) <==> exists i :: 0 <= i < |vs| && IsActiveValue(vs[i])
  {
    if vs != [] {
      SomeActiveExists(vs[1..]);
      assert forall i :: 1 <= i < |vs| ==> vs[i] == vs[1..][i - 1];
    }
  }

  /** The Clear button appears exactly when some field is neither 'all' nor empty. */
  function HasActiveFilters(f: Filters): (b: bool)
    ensures b <==> exists k :: IsActiveValue(Get(f, k))
  {
    var vs := Values(f);
    SomeActiveExists(vs);
    SomeActive(vs)
  }

  lemma InitialFiltersInactive()
    ensures !HasActiveFilters(InitialFilters)
  {
    assert forall k :: !IsActiveValue(Get(InitialFilters, k));
  }

  /** Setting a key to a value the controls treat as "no constraint" on a
      cleared state leaves the Clear button hidden; any other value shows it. */
  lemma SingleChangeActivates(k: FilterKey, v: string)
    ensures HasActiveFilters(With(InitialFilters, k, v)) <==> IsActiveValue(v)
  {
    var f := With(InitialFilters, k, v);
    assert forall k' :: k' != k ==> !IsActiveValue(Get(f, k'));
  }

  class FilterControls {
    var filters: Filters
    var showAdvancedFilters: bool

    constructor ()
      ensures filters == InitialFilters && !showAdvancedFilters
    {
      filters := InitialFilters;
      showAdvancedFilters := false;
    }

    /** Replaces one key and reports the new object to `onFiltersChange`. */
    method HandleFilterChange(key: FilterKey, value: string) returns (cb: Callback)
      modifies this`filters
      ensures filters == With(old(filters), key, value)
      ensures cb == FiltersChanged(filters)
    {
      var newFilters := With(filters, key, value);
      filters := newFilters;
      cb := FiltersChanged(newFilters);
    }

    /** Restores the defaults and calls `onClearFilters`, not `onFiltersChange`. */
    method HandleClearFilters() returns (cb: Callback)
      modifies this`filters
      ensures filters == InitialFilters && !HasActiveFilters(filters)
      ensures cb == FiltersCleared
    {
      filters := InitialFilters;
      InitialFiltersInactive();
      cb := FiltersCleared;
    }

    /** The "Filters" button shows or hides the drop-downs. */
    method ToggleAdvancedFilters()
      modifies this`showAdvancedFilters
      ensures showAdvancedFilters == !old(showAdvancedFilters)
    {
      showAdvancedFilters := !showAdvancedFilters;
    }

    /** The Clear button is rendered. */
    function ClearShown(): bool
      reads this
    {
      HasActiveFilters(filters)
    }

    /** The (unbound) custom start/end date inputs are rendered. */
    function CustomDatesShown(): bool
      reads this
    {
      showAdvancedFilters && filters.dateRange == "custom"
    }
  }
}
