/**
 * The item list view: the manufacturer drop-down (distinct, non-empty, sorted),
 * the search / filter predicate applied to the list, and the filter panel state.
 */
module ConsoleList {
  import opened Types
  import opened Strings
  import opened Seqs

  /** The value of a filter that lets everything through. */
  const ALL: string := "ALL"

  // ---------------------------------------------------------------- filtering

  /** Name or manufacturer contains the query, both lower-cased. */
  predicate MatchesSearch(item: ConsoleItem, query: string)
    ensures query == "" ==> MatchesSearch(item, query)
  {
    ContainsEmpty(Lower(item.name));
    Contains(Lower(item.name), Lower(query)) || Contains(Lower(item.manufacturer), Lower(query))
  }

  /** The search ignores the case of the query. */
  lemma MatchesSearchIgnoresCase(item: ConsoleItem, query: string)
    ensures MatchesSearch(item, Lower(query)) == MatchesSearch(item, query)
  {
    LowerIdempotent(query);
  }

  /** The four tests of the `filter` callback; the type and condition filters compare against the enum's string value. */
  predicate Keep(item: ConsoleItem, query: string, filterType: string, filterCondition: string, filterManufacturer: string)
    ensures Keep(item, query, filterType, filterCondition, filterManufacturer) ==> MatchesSearch(item, query)
    ensures filterType == ALL && filterCondition == ALL && filterManufacturer == ALL ==>
      (Keep(item, query, filterType, filterCondition, filterManufacturer) <==> MatchesSearch(item, query))
    ensures filterManufacturer != ALL && Keep(item, query, filterType, filterCondition, filterManufacturer) ==>
      item.manufacturer == filterManufacturer
  {
    && MatchesSearch(item, query)
    && (filterType == ALL || item.itemType.Value() == filterType)
    && (filterCondition == ALL || item.condition.Value() == filterCondition)
    && (filterManufacturer == ALL || item.manufacturer == filterManufacturer)
  }

  /** `filteredItems`. */
  function FilterItems(items: seq<ConsoleItem>, query: string, filterType: string, filterCondition: string, filterManufacturer: string): (r: seq<ConsoleItem>)
    ensures IsSubsequence(r, items)
    ensures forall i :: 0 <= i < |r| ==> Keep(r[i], query, filterType, filterCondition, filterManufacturer)
    ensures forall i :: 0 <= i < |items| && Keep(items[i], query, filterType, filterCondition, filterManufacturer) ==> items[i] in r
    ensures forall x :: multiset(r)[x] == if Keep(x, query, filterType, filterCondition, filterManufacturer) then multiset(items)[x] else 0
  {
    if items == [] then []
    else
      var rest := FilterItems(items[1..], query, filterType, filterCondition, filterManufacturer);
      assert items == [items[0]] + items[1..];
      if Keep(items[0], query, filterType, filterCondition, filterManufacturer) then [items[0]] + rest else rest
  }

  /** An item survives the filter exactly when it passes all four tests. */
  lemma FilterKeepsExactly(items: seq<ConsoleItem>, x: ConsoleItem, query: string, t: string, c: string, m: string)
    requires x in items
    ensures x in FilterItems(items, query, t, c, m) <==> Keep(x, query, t, c, m)
  {
    var r := FilterItems(items, query, t, c, m);
    if x in r {
      var i :| 0 <= i < |r| && r[i] == x;
    }
  }

  /** With an empty query and every filter at ALL the list is shown unchanged. */
  lemma {:induction false} NoFilterShowsAll(items: seq<ConsoleItem>)
    ensures FilterItems(items, "", ALL, ALL, ALL) == items
  {
    if items != [] {
      ContainsEmpty(Lower(items[0].name));
      NoFilterShowsAll(items[1..]);
    }
  }

  // ---------------------------------------------------------------- manufacturer list

  predicate StrictlySorted(s: seq<string>) {
    forall i, j :: 0 <= i < j < |s| ==> Less(s[i], s[j])
  }

  /** Insert `x` into a strictly sorted list, unless it is already there. */
  function InsertSorted(s: seq<string>, x: string): (r: seq<string>)
    requires StrictlySorted(s)
    ensures StrictlySorted(r)
    ensures forall y :: y in r <==> y in s || y == x
  {
    if s == [] then [x]
    else if x == s[0] then s
    else if Less(x, s[0]) then
      assert forall j :: 0 <= j < |s| ==> Less(x, s[j]) by {
        forall j | 0 <= j < |s| ensures Less(x, s[j]) {
          if j > 0 { LessTransitive(x, s[0], s[j]); }
        }
      }
      [x] + s
    else
      LessTotal(x, s[0]);
      var rest := InsertSorted(s[1..], x);
      assert forall y :: y in rest ==> Less(s[0], y);
      [s[0]] + rest
  }

  /** `manufacturers`: `Array.from(new Set(items.map(i => i.manufacturer).filter(Boolean))).sort()`. */
  function Manufacturers(items: seq<ConsoleItem>): (r: seq<string>)
    ensures StrictlySorted(r)
    ensures forall m :: m in r ==> m != "" && exists i :: 0 <= i < |items| && items[i].manufacturer == m
    ensures forall i :: 0 <= i < |items| && items[i].manufacturer != "" ==> items[i].manufacturer in r
  {
    if items == [] then []
    else
      var rest := Manufacturers(items[1..]);
      assert forall m :: m in rest ==> exists i :: 0 <= i < |items| && items[i].manufacturer == m by {
        forall m | m in rest ensures exists i :: 0 <= i < |items| && items[i].manufacturer == m {
          var k :| 0 <= k < |items[1..]| && items[1..][k].manufacturer == m;
          assert items[k + 1].manufacturer == m;
        }
      }
      if items[0].manufacturer != "" then InsertSorted(rest, items[0].manufacturer) else rest
  }

  /** A strictly sorted list has no duplicates. */
  lemma ManufacturersDistinct(items: seq<ConsoleItem>)
    ensures forall i, j :: 0 <= i < j < |Manufacturers(items)| ==> Manufacturers(items)[i] != Manufacturers(items)[j]
  {
    var r := Manufacturers(items);
    forall i, j | 0 <= i < j < |r| ensures r[i] != r[j] {
      LessIrreflexive(r[i]);
    }
  }

  // ---------------------------------------------------------------- filter panel state

  /** The search box and filter selectors of the list view. */
  class FilterPanel {
    var searchQuery: string
    var showFilters: bool
    var filterType: string
    var filterCondition: string
    var filterManufacturer: string

    constructor ()
      ensures searchQuery == "" && !showFilters
      ensures filterType == ALL && filterCondition == ALL && filterManufacturer == ALL
    {
      searchQuery := "";
      showFilters := false;
      filterType := ALL;
      filterCondition := ALL;
      filterManufacturer := ALL;
    }

    /** `hasActiveFilters`: one of the three selectors is not ALL; the search text plays no part. */
    predicate HasActiveFilters()
      reads this
      ensures !HasActiveFilters() ==>
        forall item :: Keep(item, searchQuery, filterType, filterCondition, filterManufacturer) <==> MatchesSearch(item, searchQuery)
    {
      filterType != ALL || filterCondition != ALL || filterManufacturer != ALL
    }

    /** The list the view shows. */
    function FilteredItems(items: seq<ConsoleItem>): (r: seq<ConsoleItem>)
      reads this
      ensures IsSubsequence(r, items)
      ensures r == FilterItems(items, searchQuery, filterType, filterCondition, filterManufacturer)
      ensures !HasActiveFilters() && searchQuery == "" ==> r == items
    {
      if !HasActiveFilters() && searchQuery == "" then NoFilterShowsAll(items); FilterItems(items, searchQuery, filterType, filterCondition, filterManufacturer)
      else FilterItems(items, searchQuery, filterType, filterCondition, filterManufacturer)
    }

    /** `clearFilters`. */
    method ClearFilters()
      modifies this
      ensures searchQuery == "" && !showFilters
      ensures filterType == ALL && filterCondition == ALL && filterManufacturer == ALL
      ensures !HasActiveFilters()
    {
      searchQuery := "";
      filterType := ALL;
      filterCondition := ALL;
      filterManufacturer := ALL;
      showFilters := false;
    }

    method SetSearchQuery(q: string)
      modifies this
      ensures searchQuery == q && HasActiveFilters() == old(HasActiveFilters())
      ensures showFilters == old(showFilters) && filterType == old(filterType)
      ensures filterCondition == old(filterCondition) && filterManufacturer == old(filterManufacturer)
    {
      searchQuery := q;
    }

    method ToggleShowFilters()
      modifies this
      ensures showFilters == !old(showFilters)
      ensures searchQuery == old(searchQuery) && filterType == old(filterType)
      ensures filterCondition == old(filterCondition) && filterManufacturer == old(filterManufacturer)
    {
      showFilters := !showFilters;
    }

    method SetFilterType(t: string)
      modifies this
      ensures filterType == t && filterCondition == old(filterCondition) && filterManufacturer == old(filterManufacturer)
      ensures searchQuery == old(searchQuery) && showFilters == old(showFilters)
    {
      filterType := t;
    }

    method SetFilterCondition(c: string)
      modifies this
      ensures filterCondition == c && filterType == old(filterType) && filterManufacturer == old(filterManufacturer)
      ensures searchQuery == old(searchQuery) && showFilters == old(showFilters)
    {
      filterCondition := c;
    }

    method SetFilterManufacturer(m: string)
      modifies this
      ensures filterManufacturer == m && filterType == old(filterType) && filterCondition == old(filterCondition)
      ensures searchQuery == old(searchQuery) && showFilters == old(showFilters)
    {
      filterManufacturer := m;
    }
  }
}
