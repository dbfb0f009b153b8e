/** The Advanced Filters panel (src/components/AdvancedFilters.tsx): seven
    text fields edited one key at a time, a count of the fields in use, and
    a Clear button. The panel only holds these values: no record is ever
    filtered by them, and the Apply button has no handler. */
module AdvancedFilters {
  import opened Collections

  /** The seven keys of the filter record. */
  datatype Field = SearchKeyword | DateFrom | DateTo | Category | Type | MinAmount | MaxAmount

  /** Every key, in the record's declaration order. */
  const AllFields: seq<Field> := [SearchKeyword, DateFrom, DateTo, Category, Type, MinAmount, MaxAmount]

  /** The filter record; '' means the field is not in use (the "All" choices
      of the two select boxes have the value ''). */
  datatype Filters = Filters(
    searchKeyword: string,
    dateFrom: string,
    dateTo: string,
    category: string,
    kind: string,
    minAmount: string,
    maxAmount: string)

  /** The record as the panel first renders it, and as Clear leaves it. */
  const Initial: Filters := Filters("", "", "", "", "", "", "")

  function Get(f: Filters, k: Field): string
  {
    match k
    case SearchKeyword => f.searchKeyword
    case DateFrom => f.dateFrom
    case DateTo => f.dateTo
    case Category => f.category
    case Type => f.kind
    case MinAmount => f.minAmount
    case MaxAmount => f.maxAmount
  }

  /** Whether the value held under `k` is counted as active. */
  function InUse(f: Filters): Field -> bool
  {
    k => Get(f, k) != ""
  }

  function Flag(s: string): nat
  {
    if s == "" then 0 else 1
  }

  /** `activeFiltersCount`: how many of the record's values are not ''. */
  function ActiveCount(f: Filters): (n: nat)
    ensures n <= 7
    ensures n == 0 <==> f == Initial
    ensures n == 7 <==> forall k :: Get(f, k) != ""
  {
    ActiveCountByField(f);
    AllFieldsEmptyIsInitial(f);
    Count(InUse(f), AllFields)
  }

  /** The record is the initial one exactly when every field is ''. */
  lemma AllFieldsEmptyIsInitial(f: Filters)
    ensures f == Initial <==> forall k :: Get(f, k) == ""
    ensures (forall k :: Get(f, k) != "") <==>
      f.searchKeyword != "" && f.dateFrom != "" && f.dateTo != "" && f.category != ""
      && f.kind != "" && f.minAmount != "" && f.maxAmount != ""
  {
    if forall k :: Get(f, k) == "" {
      assert Get(f, SearchKeyword) == "" && Get(f, DateFrom) == "" && Get(f, DateTo) == "";
      assert Get(f, Category) == "" && Get(f, Type) == "" && Get(f, MinAmount) == "" && Get(f, MaxAmount) == "";
    }
    if forall k :: Get(f, k) != "" {
      assert Get(f, SearchKeyword) != "" && Get(f, DateFrom) != "" && Get(f, DateTo) != "";
      assert Get(f, Category) != "" && Get(f, Type) != "" && Get(f, MinAmount) != "" && Get(f, MaxAmount) != "";
    }
  }

  /** The count is one flag per field. */
  lemma ActiveCountByField(f: Filters)
    ensures Count(InUse(f), AllFields) ==
      Flag(f.searchKeyword) + Flag(f.dateFrom) + Flag(f.dateTo) + Flag(f.category)
      + Flag(f.kind) + Flag(f.minAmount) + Flag(f.maxAmount)
  {
    var p := InUse(f);
    var s := AllFields;
    assert s[1..][1..][1..][1..][1..][1..][1..] == [];
    calc {
      |Filter(p, s)|;
      Flag(f.searchKeyword) + |Filter(p, s[1..])|;
      Flag(f.searchKeyword) + Flag(f.dateFrom) + |Filter(p, s[1..][1..])|;
      Flag(f.searchKeyword) + Flag(f.dateFrom) + Flag(f.dateTo) + |Filter(p, s[1..][1..][1..])|;
      Flag(f.searchKeyword) + Flag(f.dateFrom) + Flag(f.dateTo) + Flag(f.category)
        + |Filter(p, s[1..][1..][1..][1..])|;
      Flag(f.searchKeyword) + Flag(f.dateFrom) + Flag(f.dateTo) + Flag(f.category)
        + Flag(f.kind) + |Filter(p, s[1..][1..][1..][1..][1..])|;
      Flag(f.searchKeyword) + Flag(f.dateFrom) + Flag(f.dateTo) + Flag(f.category)
        + Flag(f.kind) + Flag(f.minAmount) + |Filter(p, s[1..][1..][1..][1..][1..][1..])|;
      Flag(f.searchKeyword) + Flag(f.dateFrom) + Flag(f.dateTo) + Flag(f.category)
        + Flag(f.kind) + Flag(f.minAmount) + Flag(f.maxAmount);
    }
  }

  /** `handleFilterChange(k, v)`: field `k` takes the value `v` and every
      other field keeps its value. */
  function HandleFilterChange(f: Filters, k: Field, v: string): (r: Filters)
    ensures Get(r, k) == v
    ensures forall j :: j != k ==> Get(r, j) == Get(f, j)
  {
    match k
    case SearchKeyword => f.(searchKeyword := v)
    case DateFrom => f.(dateFrom := v)
    case DateTo => f.(dateTo := v)
    case Category => f.(category := v)
    case Type => f.(kind := v)
    case MinAmount => f.(minAmount := v)
    case MaxAmount => f.(maxAmount := v)
  }

  /** Filling an empty field raises the count by one, emptying a filled
      field lowers it by one, and any other change leaves it alone. */
  lemma ChangeAdjustsCount(f: Filters, k: Field, v: string)
    ensures Get(f, k) == "" && v != "" ==> ActiveCount(HandleFilterChange(f, k, v)) == ActiveCount(f) + 1
    ensures Get(f, k) != "" && v == "" ==> ActiveCount(HandleFilterChange(f, k, v)) + 1 == ActiveCount(f)
    ensures (Get(f, k) == "") == (v == "") ==> ActiveCount(HandleFilterChange(f, k, v)) == ActiveCount(f)
  {
    ActiveCountByField(f);
    ActiveCountByField(HandleFilterChange(f, k, v));
  }

  /** Writing a field's old value back undoes a change. */
  lemma ChangeUndone(f: Filters, k: Field, v: string)
    ensures HandleFilterChange(HandleFilterChange(f, k, v), k, Get(f, k)) == f
  {
  }

  /** `clearFilters`: every field back to '', so nothing is counted;
      clearing twice is clearing once. */
  function ClearFilters(f: Filters): (r: Filters)
    ensures forall k :: Get(r, k) == ""
    ensures ActiveCount(r) == 0
  {
    Initial
  }

  /** Clearing an already cleared record changes nothing. */
  lemma ClearIdempotent(f: Filters)
    ensures ClearFilters(ClearFilters(f)) == ClearFilters(f)
  {
  }

  /** The Clear button is disabled exactly when no field is in use. */
  function ClearDisabled(f: Filters): (disabled: bool)
    ensures disabled <==> forall k :: Get(f, k) == ""
  {
    ActiveCount(f) == 0
  }
}
