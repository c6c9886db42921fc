/**
 * The filter state of the search screen (src/components/SearchScreen.tsx):
 * a record of four list-valued filters and one scalar date range, the
 * updater that checks, unchecks or sets one of them, the reset, and the
 * count of active filters shown on the badge.
 */
module Search {

  /** The `SearchFilter` record. */
  datatype SearchFilter = SearchFilter(
    categories: seq<string>,
    tags: seq<string>,
    dateRange: string,
    riskLevel: seq<string>,
    fileTypes: seq<string>)

  /** `keyof SearchFilter`. */
  datatype FilterKey = Categories | Tags | DateRange | RiskLevel | FileTypes {
    /** The keys whose field is an array (the `Array.isArray` test of the updater). */
    predicate IsList() { !DateRange? }
  }

  /** The state the screen starts in and `clearFilters` returns to. */
  const InitialFilters := SearchFilter([], [], "all", [], [])

  /** The list held under a list-valued key. */
  function ListOf(f: SearchFilter, key: FilterKey): seq<string>
    requires key.IsList()
  {
    match key
    case Categories => f.categories
    case Tags => f.tags
    case RiskLevel => f.riskLevel
    case FileTypes => f.fileTypes
  }

  /** `array.filter(item => item !== value)`: every occurrence of `value` dropped, the rest kept. */
  function RemoveAll(s: seq<string>, value: string): (r: seq<string>)
    ensures multiset(r) == multiset(s)[value := 0]
    ensures forall x :: x in r <==> x in s && x != value
    ensures |r| == |s| - multiset(s)[value]
  {
    if s == [] then []
    else
      assert s == [s[0]] + s[1..];
      if s[0] == value then RemoveAll(s[1..], value)
      else [s[0]] + RemoveAll(s[1..], value)
  }

  /** Filtering a concatenation filters each part and keeps them in order. */
  lemma {:induction false} RemoveAllAppend(a: seq<string>, b: seq<string>, value: string)
    ensures RemoveAll(a + b, value) == RemoveAll(a, value) + RemoveAll(b, value)
  {
    if a != [] {
      assert (a + b)[0] == a[0];
      assert (a + b)[1..] == a[1..] + b;
      RemoveAllAppend(a[1..], b, value);
    } else {
      assert a + b == b;
    }
  }

  /** Filtering out a value that does not occur changes nothing. */
  lemma {:induction false} RemoveAllAbsent(s: seq<string>, value: string)
    requires value !in s
    ensures RemoveAll(s, value) == s
  {
    if s != [] {
      assert value !in s[1..];
      RemoveAllAbsent(s[1..], value);
    }
  }

  /** The new value of a list filter after a checkbox change. */
  function Toggled(list: seq<string>, value: string, checked: bool): (r: seq<string>)
    ensures checked ==> |r| == |list| + 1 && r[..|list|] == list && r[|list|] == value
    ensures !checked ==> value !in r && multiset(r) == multiset(list)[value := 0]
  {
    if checked then list + [value] else RemoveAll(list, value)
  }

  /**
   * The updater `handleFilterChange` passes to `setFilters`: a list key
   * appends the value when `checked` and filters it out otherwise; the date
   * range is replaced by the value. No other field changes.
   */
  function FilterChange(prev: SearchFilter, key: FilterKey, value: string, checked: bool): (r: SearchFilter)
    ensures key.IsList() ==> ListOf(r, key) == Toggled(ListOf(prev, key), value, checked)
    ensures key.IsList() ==> r.dateRange == prev.dateRange
    ensures key == DateRange ==> r.dateRange == value
    ensures forall k: FilterKey :: k.IsList() && k != key ==> ListOf(r, k) == ListOf(prev, k)
  {
    match key
    case Categories => prev.(categories := Toggled(prev.categories, value, checked))
    case Tags => prev.(tags := Toggled(prev.tags, value, checked))
    case RiskLevel => prev.(riskLevel := Toggled(prev.riskLevel, value, checked))
    case FileTypes => prev.(fileTypes := Toggled(prev.fileTypes, value, checked))
    case DateRange => prev.(dateRange := value)
  }

  /** Checking a value that was not in its list and unchecking it again restores the filters. */
  lemma {:induction false} CheckThenUncheck(f: SearchFilter, key: FilterKey, value: string)
    requires key.IsList() && value !in ListOf(f, key)
    ensures FilterChange(FilterChange(f, key, value, true), key, value, false) == f
  {
    var list := ListOf(f, key);
    RemoveAllAppend(list, [value], value);
    RemoveAllAbsent(list, value);
    assert RemoveAll([value], value) == [];
    assert Toggled(Toggled(list, value, true), value, false) == list;
  }

  /** Unchecking after checking is the same as unchecking alone, whether or not the value was there. */
  lemma {:induction false} UncheckAbsorbsCheck(list: seq<string>, value: string)
    ensures Toggled(Toggled(list, value, true), value, false) == Toggled(list, value, false)
  {
    RemoveAllAppend(list, [value], value);
    assert RemoveAll([value], value) == [];
  }

  /** `activeFiltersCount`: zero exactly when the filters are in their initial state. */
  function ActiveFiltersCount(f: SearchFilter): (n: nat)
    ensures n == 0 <==> f == InitialFilters
  {
    |f.categories| + |f.tags| + |f.riskLevel| + |f.fileTypes| + (if f.dateRange != "all" then 1 else 0)
  }

  /** The count badge and the "Limpar" button appear only while some filter is active. */
  function ShowsActiveFilters(f: SearchFilter): (shown: bool)
    ensures shown <==> f != InitialFilters
  {
    ActiveFiltersCount(f) > 0
  }

  /** Checking a value adds exactly one to the count. */
  lemma CheckIncrementsCount(f: SearchFilter, key: FilterKey, value: string)
    requires key.IsList()
    ensures ActiveFiltersCount(FilterChange(f, key, value, true)) == ActiveFiltersCount(f) + 1
  {
  }

  /** Unchecking a value subtracts the number of its occurrences from the count. */
  lemma UncheckDecrementsCount(f: SearchFilter, key: FilterKey, value: string)
    requires key.IsList()
    ensures ActiveFiltersCount(FilterChange(f, key, value, false))
         == ActiveFiltersCount(f) - multiset(ListOf(f, key))[value]
  {
  }

  /** Setting the date range changes the count only through whether the range is `'all'`. */
  lemma DateRangeCount(f: SearchFilter, value: string)
    ensures ActiveFiltersCount(FilterChange(f, DateRange, value, false))
         == ActiveFiltersCount(f) - (if f.dateRange != "all" then 1 else 0) + (if value != "all" then 1 else 0)
  {
  }

  /** The screen's `filters` state cell. */
  class SearchScreen {
    var filters: SearchFilter

    constructor ()
      ensures filters == InitialFilters && ActiveFiltersCount(filters) == 0
    {
      filters := InitialFilters;
    }

    /** `handleFilterChange(filterType, value, checked)`; an omitted `checked` is passed as false. */
    method HandleFilterChange(key: FilterKey, value: string, checked: bool)
      modifies this
      ensures filters == FilterChange(old(filters), key, value, checked)
    {
      var newFilters := filters;
      if key.IsList() {
        var list := ListOf(newFilters, key);
        if checked {
          list := list + [value];
        } else {
          list := RemoveAll(list, value);
        }
        match key
        case Categories => newFilters := newFilters.(categories := list);
        case Tags => newFilters := newFilters.(tags := list);
        case RiskLevel => newFilters := newFilters.(riskLevel := list);
        case FileTypes => newFilters := newFilters.(fileTypes := list);
      } else {
        newFilters := newFilters.(dateRange := value);
      }
      filters := newFilters;
    }

    /** `clearFilters`: the result does not depend on the state before, so clearing twice equals clearing once. */
    method ClearFilters()
      modifies this
      ensures filters == InitialFilters
      ensures ActiveFiltersCount(filters) == 0 && !ShowsActiveFilters(filters)
    {
      filters := SearchFilter([], [], "all", [], []);
    }
  }
}
