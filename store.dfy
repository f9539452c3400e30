/** The dashboard's shared state store (src/lib/store.ts): the sales records,
    the flat filter bag, the view mode and the loading flag, with the five
    actions that overwrite them. */
module Store {
  import opened JsValues

  datatype SaleRecord = SaleRecord(
    id: string, date: string, product: string, category: string, amount: int, region: string)

  /** The five keys a filter bag may own. */
  datatype FilterKey = MinAmount | MaxAmount | Category | Region | Search

  /** The filter bag `FilterState`: each key optional. */
  datatype FilterState = FilterState(
    minAmount: Prop<int>, maxAmount: Prop<int>,
    category: Prop<string>, region: Prop<string>, search: Prop<string>)

  /** The empty object `{}`. */
  const NoFilters := FilterState(Absent, Absent, Absent, Absent, Absent)

  /** The filter bag seen as a JavaScript object: the own property under `k`. */
  function Entry(f: FilterState, k: FilterKey): Option<JsValue>
  {
    match k
    case MinAmount => NumberEntry(f.minAmount)
    case MaxAmount => NumberEntry(f.maxAmount)
    case Category => StringEntry(f.category)
    case Region => StringEntry(f.region)
    case Search => StringEntry(f.search)
  }

  /** `Object.keys(f)`, as a set. */
  function Keys(f: FilterState): (ks: set<FilterKey>)
    ensures forall k :: k in ks <==> Entry(f, k).Some?
  {
    (if f.minAmount.Absent? then {} else {MinAmount})
    + (if f.maxAmount.Absent? then {} else {MaxAmount})
    + (if f.category.Absent? then {} else {Category})
    + (if f.region.Absent? then {} else {Region})
    + (if f.search.Absent? then {} else {Search})
  }

  /** `{ ...f, ...p }`: the merge `setFilter` performs. */
  function Merge(f: FilterState, p: FilterState): (r: FilterState)
    ensures Keys(r) == Keys(f) + Keys(p)
    ensures forall k :: k in Keys(p) ==> Entry(r, k) == Entry(p, k)
    ensures forall k :: k !in Keys(p) ==> Entry(r, k) == Entry(f, k)
  {
    FilterState(
      Spread(f.minAmount, p.minAmount), Spread(f.maxAmount, p.maxAmount),
      Spread(f.category, p.category), Spread(f.region, p.region), Spread(f.search, p.search))
  }

  /** Two bags owning the same keys with the same values are the same bag. */
  lemma EntryExtensional(f: FilterState, g: FilterState)
    requires forall k :: Entry(f, k) == Entry(g, k)
    ensures f == g
  {
    assert Entry(f, MinAmount) == Entry(g, MinAmount);
    assert Entry(f, MaxAmount) == Entry(g, MaxAmount);
    assert Entry(f, Category) == Entry(g, Category);
    assert Entry(f, Region) == Entry(g, Region);
    assert Entry(f, Search) == Entry(g, Search);
  }

  /** Merging an empty partial changes nothing. */
  lemma MergeEmptyPartial(f: FilterState)
    ensures Merge(f, NoFilters) == f
  {
  }

  /** Merging into the empty bag yields the partial itself. */
  lemma MergeIntoEmpty(p: FilterState)
    ensures Merge(NoFilters, p) == p
  {
  }

  /** Applying the same partial twice equals applying it once. */
  lemma MergeIdempotent(f: FilterState, p: FilterState)
    ensures Merge(Merge(f, p), p) == Merge(f, p)
  {
  }

  /** Two consecutive `setFilter` calls equal one with the merged partial. */
  lemma MergeAssociative(f: FilterState, p: FilterState, q: FilterState)
    ensures Merge(Merge(f, p), q) == Merge(f, Merge(p, q))
  {
  }

  /** The eight seed records `INITIAL_DATA`. */
  const InitialData: seq<SaleRecord> := [
    SaleRecord("1", "2024-01-15", "Laptop Pro", "Electronics", 1200, "North"),
    SaleRecord("2", "2024-01-16", "Ergo Chair", "Furniture", 350, "West"),
    SaleRecord("3", "2024-01-17", "Wireless Buds", "Electronics", 150, "East"),
    SaleRecord("4", "2024-01-18", "Desk Lamp", "Furniture", 45, "South"),
    SaleRecord("5", "2024-01-20", "Monitor 4K", "Electronics", 450, "North"),
    SaleRecord("6", "2024-01-21", "Coffee Table", "Furniture", 200, "West"),
    SaleRecord("7", "2024-01-22", "Smartphone", "Electronics", 800, "East"),
    SaleRecord("8", "2024-01-23", "Bookshelf", "Furniture", 120, "South")
  ]

  /** The seed records have pairwise-distinct ids and non-negative amounts. */
  lemma InitialDataWellFormed()
    ensures |InitialData| == 8
    ensures forall i, j :: 0 <= i < j < |InitialData| ==> InitialData[i].id != InitialData[j].id
    ensures forall i :: 0 <= i < |InitialData| ==> InitialData[i].amount >= 0
  {
  }

  /** `viewMode` holds whatever value it was last given; these are the two
      the type declares. */
  const TableMode := JsString("table")
  const ChartMode := JsString("chart")

  /** A snapshot of the store's four data fields. */
  datatype StoreState = StoreState(
    data: seq<SaleRecord>, activeFilters: FilterState, viewMode: JsValue, isLoading: bool)

  /** `useDashboardStore`: the store object whose fields each action overwrites. */
  class DashboardStore {
    var data: seq<SaleRecord>
    var activeFilters: FilterState
    var viewMode: JsValue
    var isLoading: bool

    function State(): StoreState
      reads this
    {
      StoreState(data, activeFilters, viewMode, isLoading)
    }

    /** The initial state: the seed data, no filters, the table view, not loading. */
    constructor ()
      ensures State() == StoreState(InitialData, NoFilters, TableMode, false)
      ensures Keys(activeFilters) == {}
    {
      data := InitialData;
      activeFilters := NoFilters;
      viewMode := TableMode;
      isLoading := false;
    }

    method SetData(newData: seq<SaleRecord>)
      modifies this
      ensures State() == old(State()).(data := newData)
    {
      data := newData;
    }

    /** Merges the partial over the current filters; nothing else changes. */
    method SetFilter(newFilters: FilterState)
      modifies this
      ensures State() == old(State()).(activeFilters := Merge(old(activeFilters), newFilters))
      ensures forall k :: k in Keys(newFilters) ==> Entry(activeFilters, k) == Entry(newFilters, k)
      ensures forall k :: k !in Keys(newFilters) ==> Entry(activeFilters, k) == Entry(old(activeFilters), k)
    {
      activeFilters := Merge(activeFilters, newFilters);
    }

    /** Resets the filter bag to `{}` from any prior state. */
    method ClearFilters()
      modifies this
      ensures State() == old(State()).(activeFilters := NoFilters)
      ensures Keys(activeFilters) == {}
    {
      activeFilters := NoFilters;
    }

    method SetViewMode(mode: JsValue)
      modifies this
      ensures State() == old(State()).(viewMode := mode)
    {
      viewMode := mode;
    }

    method SetLoading(loading: bool)
      modifies this
      ensures State() == old(State()).(isLoading := loading)
    {
      isLoading := loading;
    }
  }
}
