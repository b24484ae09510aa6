/**
 * The statistics view: the collection's total value and the per-manufacturer
 * item counts behind the pie chart.
 */
module Dashboard {
  import opened Wrappers
  import opened Types

  /** `item.manufacturer || 'Outro'`: an empty manufacturer is counted under "Outro". */
  function ManufacturerKey(item: ConsoleItem): (k: string)
    ensures item.manufacturer == "" ==> k == "Outro"
    ensures item.manufacturer != "" ==> k == item.manufacturer
  {
    if item.manufacturer == "" then "Outro" else item.manufacturer
  }

  /** Number of items counted under `key`. */
  function CountKey(items: seq<ConsoleItem>, key: string): (n: nat)
    ensures n <= |items|
  {
    if items == [] then 0
    else CountKey(items[..|items| - 1], key) + (if ManufacturerKey(items[|items| - 1]) == key then 1 else 0)
  }

  /** One slice of the pie: a manufacturer and its item count (an entry of `Object.entries`). */
  datatype PieEntry = PieEntry(name: string, value: nat)

  function SumValues(entries: seq<PieEntry>): nat {
    if entries == [] then 0 else SumValues(entries[..|entries| - 1]) + entries[|entries| - 1].value
  }

  predicate DistinctNames(entries: seq<PieEntry>) {
    forall a, b :: 0 <= a < b < |entries| ==> entries[a].name != entries[b].name
  }

  /** Position of the entry for `key`, if there is one. */
  function FindEntry(entries: seq<PieEntry>, key: string): (r: Option<nat>)
    ensures r.Some? ==> r.value < |entries| && entries[r.value].name == key
    ensures r.None? ==> forall k :: 0 <= k < |entries| ==> entries[k].name != key
  {
    if entries == [] then None
    else if entries[|entries| - 1].name == key then Some(|entries| - 1)
    else FindEntry(entries[..|entries| - 1], key)
  }

  lemma {:induction false} SumValuesAppend(entries: seq<PieEntry>, e: PieEntry)
    ensures SumValues(entries + [e]) == SumValues(entries) + e.value
  {
    assert (entries + [e])[..|entries|] == entries;
  }

  lemma {:induction false} SumValuesIncrement(entries: seq<PieEntry>, k: nat)
    requires k < |entries|
    ensures SumValues(entries[k := PieEntry(entries[k].name, entries[k].value + 1)]) == SumValues(entries) + 1
    decreases |entries|
  {
    var updated := entries[k := PieEntry(entries[k].name, entries[k].value + 1)];
    var n := |entries| - 1;
    if k == n {
      assert updated[..n] == entries[..n];
    } else {
      assert updated[..n] == entries[..n][k := PieEntry(entries[k].name, entries[k].value + 1)];
      SumValuesIncrement(entries[..n], k);
    }
  }

  /** `acc[manu] = (acc[manu] || 0) + 1` on the entry list. */
  function Tally(entries: seq<PieEntry>, key: string): (r: seq<PieEntry>)
    ensures FindEntry(entries, key).Some? ==> |r| == |entries|
    ensures FindEntry(entries, key).None? ==> r == entries + [PieEntry(key, 1)]
  {
    match FindEntry(entries, key)
    case Some(k) => entries[k := PieEntry(key, entries[k].value + 1)]
    case None => entries + [PieEntry(key, 1)]
  }

  /** The slice names, in order. */
  function Names(entries: seq<PieEntry>): seq<string> {
    seq(|entries|, k requires 0 <= k < |entries| => entries[k].name)
  }

  /** The key every item is counted under, in order. */
  function Keys(items: seq<ConsoleItem>): seq<string> {
    seq(|items|, j requires 0 <= j < |items| => ManufacturerKey(items[j]))
  }

  /** What the entry list says about the items tallied so far. */
  ghost predicate Tallied(items: seq<ConsoleItem>, entries: seq<PieEntry>) {
    && DistinctNames(entries)
    && (forall k :: 0 <= k < |entries| ==> entries[k].value == CountKey(items, entries[k].name))
    && (forall name :: name in Names(entries) <==> name in Keys(items))
    && SumValues(entries) == |items|
  }

  lemma {:induction false} CountKeyZero(items: seq<ConsoleItem>, key: string)
    requires key !in Keys(items)
    ensures CountKey(items, key) == 0
  {
    if items != [] {
      var init := items[..|items| - 1];
      assert Keys(items) == Keys(init) + [ManufacturerKey(items[|items| - 1])];
      CountKeyZero(init, key);
    }
  }

  /** Appending one item adds one to its own key's count and leaves every other count alone. */
  lemma CountKeySnoc(items: seq<ConsoleItem>, item: ConsoleItem, key: string)
    ensures CountKey(items + [item], key) == CountKey(items, key) + (if ManufacturerKey(item) == key then 1 else 0)
  {
    assert (items + [item])[..|items|] == items;
  }

  lemma TallyNames(entries: seq<PieEntry>, key: string)
    ensures FindEntry(entries, key).Some? ==> Names(Tally(entries, key)) == Names(entries) && key in Names(entries)
    ensures FindEntry(entries, key).None? ==> Names(Tally(entries, key)) == Names(entries) + [key] && key !in Names(entries)
  {
    match FindEntry(entries, key)
    case Some(k) =>
      assert Names(entries)[k] == key;
    case None =>
  }

  lemma TallyDistinct(entries: seq<PieEntry>, key: string)
    requires DistinctNames(entries)
    ensures DistinctNames(Tally(entries, key))
  {
  }

  lemma TallyCounts(items: seq<ConsoleItem>, item: ConsoleItem, entries: seq<PieEntry>)
    requires DistinctNames(entries)
    requires forall k :: 0 <= k < |entries| ==> entries[k].value == CountKey(items, entries[k].name)
    requires forall name :: name in Names(entries) <==> name in Keys(items)
    ensures var r := Tally(entries, ManufacturerKey(item));
      forall k :: 0 <= k < |r| ==> r[k].value == CountKey(items + [item], r[k].name)
  {
    var key := ManufacturerKey(item);
    var r := Tally(entries, key);
    TallyNames(entries, key);
    forall k | 0 <= k < |r| ensures r[k].value == CountKey(items + [item], r[k].name) {
      CountKeySnoc(items, item, r[k].name);
      match FindEntry(entries, key)
      case Some(k0) =>
        if k != k0 { assert r[k] == entries[k]; }
      case None =>
        if k == |entries| { CountKeyZero(items, key); } else { assert r[k] == entries[k]; }
    }
  }

  lemma TallySum(entries: seq<PieEntry>, key: string)
    ensures SumValues(Tally(entries, key)) == SumValues(entries) + 1
  {
    match FindEntry(entries, key)
    case Some(k) => SumValuesIncrement(entries, k);
    case None => SumValuesAppend(entries, PieEntry(key, 1));
  }

  lemma TallyStep(items: seq<ConsoleItem>, item: ConsoleItem, entries: seq<PieEntry>)
    requires Tallied(items, entries)
    ensures Tallied(items + [item], Tally(entries, ManufacturerKey(item)))
  {
    var key := ManufacturerKey(item);
    TallyDistinct(entries, key);
    TallyCounts(items, item, entries);
    TallySum(entries, key);
    TallyNames(entries, key);
    assert Keys(items + [item]) == Keys(items) + [key];
  }

  /**
   * `manufacturerStats` followed by `pieData`: the dictionary accumulator is kept
   * as its entry list, in the order keys are first met. One slice per distinct
   * key, each holding the number of items counted under it.
   */
  method ManufacturerStats(items: seq<ConsoleItem>) returns (pieData: seq<PieEntry>)
    ensures DistinctNames(pieData)
    ensures forall k :: 0 <= k < |pieData| ==> pieData[k].value == CountKey(items, pieData[k].name)
    ensures forall name :: name in Names(pieData) <==> name in Keys(items)
    ensures SumValues(pieData) == |items|
  {
    pieData := [];
    var i := 0;
    while i < |items|
      invariant 0 <= i <= |items|
      invariant Tallied(items[..i], pieData)
    {
      var manu := ManufacturerKey(items[i]);
      TallyStep(items[..i], items[i], pieData);
      assert items[..i + 1] == items[..i] + [items[i]];
      pieData := Tally(pieData, manu);
      i := i + 1;
    }
    assert items[..i] == items;
  }
}
