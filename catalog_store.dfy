/**
 * The application's state store: the collection list, the active collection,
 * the custom categories, the create-collection dialog flag and browser storage,
 * updated by the event handlers and by the load and save effects.
 */
module CatalogStore {
  import opened Wrappers
  import opened Types
  import opened Seqs
  import opened Gamification

  const COLLECTIONS_KEY: string := "colletr_collections"
  const LEGACY_ITEMS_KEY: string := "colletr_items"
  const CATEGORIES_KEY: string := "colletr_custom_categories"

  /**
   * A value in browser storage, already parsed. `Text` is a value that does not
   * parse as JSON; the empty text is falsy and reads as "nothing saved".
   */
  datatype Stored =
    | StoredCollections(collections: seq<Collection>)
    | StoredItems(items: seq<ConsoleItem>)
    | StoredCategories(categories: seq<CustomCategory>)
    | Text(text: string)

  /** `localStorage.getItem(key)` is truthy. */
  predicate Present(storage: map<string, Stored>, key: string) {
    key in storage && storage[key] != Text("")
  }

  /** The three ways the load effect can go, plus a saved value that does not parse. */
  predicate HasSavedCollections(storage: map<string, Stored>) {
    Present(storage, COLLECTIONS_KEY) && storage[COLLECTIONS_KEY].StoredCollections?
  }

  predicate HasLegacyItems(storage: map<string, Stored>) {
    !Present(storage, COLLECTIONS_KEY) && Present(storage, LEGACY_ITEMS_KEY) && storage[LEGACY_ITEMS_KEY].StoredItems?
  }

  predicate FirstVisit(storage: map<string, Stored>) {
    !Present(storage, COLLECTIONS_KEY) && !Present(storage, LEGACY_ITEMS_KEY)
  }

  /** A saved value under `key` on which `JSON.parse` throws. */
  predicate Unparsable(storage: map<string, Stored>, key: string) {
    Present(storage, key) && storage[key].Text?
  }

  /** The load and migration effect parses the key it reads and throws on it. */
  predicate LoadThrows(storage: map<string, Stored>) {
    if Present(storage, COLLECTIONS_KEY) then Unparsable(storage, COLLECTIONS_KEY) else Unparsable(storage, LEGACY_ITEMS_KEY)
  }

  /** `!activeCollectionId` is false: the id is set and not empty. */
  predicate HasActive(activeId: Option<string>) {
    activeId.Some? && activeId.value != ""
  }

  // ---------------------------------------------------------------- the active collection

  /** Position of the first collection with id `id` (`collections.find`). */
  function CollectionIndex(cols: seq<Collection>, id: string): (r: Option<nat>)
    ensures r.Some? ==> r.value < |cols| && cols[r.value].id == id
    ensures r.Some? ==> forall j :: 0 <= j < r.value ==> cols[j].id != id
    ensures r.None? <==> forall j :: 0 <= j < |cols| ==> cols[j].id != id
  {
    if cols == [] then None
    else if cols[0].id == id then Some(0)
    else match CollectionIndex(cols[1..], id)
      case None => None
      case Some(k) => Some(k + 1)
  }

  /** The first match is determined by the ids alone. */
  lemma {:induction false} CollectionIndexByIds(a: seq<Collection>, b: seq<Collection>, id: string)
    requires |a| == |b| && forall i :: 0 <= i < |a| ==> a[i].id == b[i].id
    ensures CollectionIndex(a, id) == CollectionIndex(b, id)
  {
    if a != [] {
      assert forall i :: 0 <= i < |a[1..]| ==> a[1..][i].id == a[i + 1].id == b[i + 1].id == b[1..][i].id;
      CollectionIndexByIds(a[1..], b[1..], id);
    }
  }

  /** `activeCollection`: `find` compares against null too, which never matches. */
  function ActiveCollection(cols: seq<Collection>, activeId: Option<string>): (r: Option<Collection>)
    ensures activeId.None? ==> r.None?
    ensures r.Some? ==> r.value in cols && r.value.id == activeId.value
    ensures r.Some? ==> exists k :: 0 <= k < |cols| && cols[k] == r.value && forall j :: 0 <= j < k ==> cols[j].id != activeId.value
    ensures activeId.Some? && r.None? ==> forall j :: 0 <= j < |cols| ==> cols[j].id != activeId.value
  {
    if activeId.None? then None
    else match CollectionIndex(cols, activeId.value)
      case None => None
      case Some(k) => assert cols[k] == cols[k]; Some(cols[k])
  }

  /** `activeCollection?.items || []`: the list the views show. */
  function CurrentItems(cols: seq<Collection>, activeId: Option<string>): (r: seq<ConsoleItem>)
    ensures ActiveCollection(cols, activeId).None? ==> r == []
    ensures ActiveCollection(cols, activeId).Some? ==> r == ActiveCollection(cols, activeId).value.items
  {
    match ActiveCollection(cols, activeId)
    case None => []
    case Some(c) => c.items
  }

  /** `activeCollection?.type || CollectionType.CONSOLES`, handed to the add-item dialog. */
  function CurrentCollectionType(cols: seq<Collection>, activeId: Option<string>): (t: string)
    ensures t != ""
    ensures ActiveCollection(cols, activeId).Some? && ActiveCollection(cols, activeId).value.collectionType != "" ==>
      t == ActiveCollection(cols, activeId).value.collectionType
    ensures ActiveCollection(cols, activeId).Some? && ActiveCollection(cols, activeId).value.collectionType == "" ==>
      t == CONSOLES
    ensures ActiveCollection(cols, activeId).None? ==> t == CONSOLES
  {
    match ActiveCollection(cols, activeId)
    case Some(c) => if c.collectionType != "" then c.collectionType else CONSOLES
    case None => CONSOLES
  }

  /** A freshly created collection is the one shown, unless an older collection carries the same id. */
  lemma CreatedIsShown(cols: seq<Collection>, c: Collection)
    requires forall j :: 0 <= j < |cols| ==> cols[j].id != c.id
    ensures ActiveCollection(cols + [c], Some(c.id)) == Some(c)
  {
    var r := CollectionIndex(cols + [c], c.id);
    assert (cols + [c])[|cols|].id == c.id;
  }

  /** Appending never moves the first match of an id that already occurs. */
  lemma CollectionIndexAppend(a: seq<Collection>, b: seq<Collection>, id: string)
    requires CollectionIndex(a, id).Some?
    ensures CollectionIndex(a + b, id) == CollectionIndex(a, id)
  {
    var k := CollectionIndex(a, id).value;
    assert (a + b)[k] == a[k];
    assert forall j :: 0 <= j < k ==> (a + b)[j] == a[j];
  }

  /**
   * Ids are not checked for uniqueness: with a clash the older collection,
   * the first with that id, stays on screen.
   */
  lemma DuplicateIdShowsOlder(cols: seq<Collection>, c: Collection)
    requires exists k :: 0 <= k < |cols| && cols[k].id == c.id
    ensures CollectionIndex(cols, c.id).Some?
    ensures ActiveCollection(cols + [c], Some(c.id)) == Some(cols[CollectionIndex(cols, c.id).value])
  {
    CollectionIndexAppend(cols, [c], c.id);
  }

  // ---------------------------------------------------------------- item handlers

  /** The mapper of `handleAddItem`: the new item goes in front of each collection with the active id. */
  function PrependToActive(cols: seq<Collection>, activeId: string, item: ConsoleItem): (r: seq<Collection>)
    ensures |r| == |cols|
    ensures forall i :: 0 <= i < |cols| && cols[i].id == activeId ==> r[i] == cols[i].(items := [item] + cols[i].items)
    ensures forall i :: 0 <= i < |cols| && cols[i].id != activeId ==> r[i] == cols[i]
  {
    if cols == [] then []
    else
      var head := if cols[0].id == activeId then cols[0].(items := [item] + cols[0].items) else cols[0];
      [head] + PrependToActive(cols[1..], activeId, item)
  }

  /** After adding, the shown list is the new item followed by the previous list. */
  lemma AddItemShowsItemFirst(cols: seq<Collection>, activeId: string, item: ConsoleItem)
    requires ActiveCollection(cols, Some(activeId)).Some?
    ensures CurrentItems(PrependToActive(cols, activeId, item), Some(activeId)) == [item] + CurrentItems(cols, Some(activeId))
  {
    CollectionIndexByIds(cols, PrependToActive(cols, activeId, item), activeId);
  }

  /** Adding an item of non-negative value never lowers the level and never re-locks an achievement. */
  lemma AddItemKeepsProgress(cols: seq<Collection>, activeId: string, item: ConsoleItem)
    requires ActiveCollection(cols, Some(activeId)).Some?
    requires ItemPrice(item) >= 0
    ensures var before := CurrentItems(cols, Some(activeId));
      var after := CurrentItems(PrependToActive(cols, activeId, item), Some(activeId));
      && CalculateLevel(after).currentLevel >= CalculateLevel(before).currentLevel
      && forall i :: 0 <= i < 8 && CheckAchievements(before)[i].isUnlocked ==> CheckAchievements(after)[i].isUnlocked
  {
    var before := CurrentItems(cols, Some(activeId));
    AddItemShowsItemFirst(cols, activeId, item);
    LevelMonotoneOnAdd(before, item);
    AchievementsNeverRelock(before, item);
  }

  /** The item mapper of `handleSaveAlert`. */
  function SetAlert(items: seq<ConsoleItem>, itemId: string, alert: PriceAlert): (r: seq<ConsoleItem>)
    ensures |r| == |items|
    ensures forall j :: 0 <= j < |items| && items[j].id == itemId ==> r[j] == items[j].(priceAlert := Some(alert))
    ensures forall j :: 0 <= j < |items| && items[j].id != itemId ==> r[j] == items[j]
  {
    if items == [] then []
    else
      var head := if items[0].id == itemId then items[0].(priceAlert := Some(alert)) else items[0];
      [head] + SetAlert(items[1..], itemId, alert)
  }

  /** The collection mapper of `handleSaveAlert`: only the active collection's items are touched. */
  function SetAlertInActive(cols: seq<Collection>, activeId: string, itemId: string, alert: PriceAlert): (r: seq<Collection>)
    ensures |r| == |cols|
    ensures forall i :: 0 <= i < |cols| && cols[i].id == activeId ==> r[i] == cols[i].(items := SetAlert(cols[i].items, itemId, alert))
    ensures forall i :: 0 <= i < |cols| && cols[i].id != activeId ==> r[i] == cols[i]
  {
    if cols == [] then []
    else
      var head := if cols[0].id == activeId then cols[0].(items := SetAlert(cols[0].items, itemId, alert)) else cols[0];
      [head] + SetAlertInActive(cols[1..], activeId, itemId, alert)
  }

  /** An alert changes no price, hence neither the total value nor the level. */
  lemma {:induction false} SetAlertKeepsValue(items: seq<ConsoleItem>, itemId: string, alert: PriceAlert)
    ensures TotalValue(SetAlert(items, itemId, alert)) == TotalValue(items)
    ensures CalculateLevel(SetAlert(items, itemId, alert)) == CalculateLevel(items)
  {
    if items != [] {
      SetAlertKeepsValue(items[1..], itemId, alert);
      assert SetAlert(items, itemId, alert)[1..] == SetAlert(items[1..], itemId, alert);
    }
  }

  // ---------------------------------------------------------------- category handlers

  /** The first category with id `id` (`customCategories.find`). */
  function FindCategory(cats: seq<CustomCategory>, id: string): (r: Option<CustomCategory>)
    ensures r.Some? ==> exists k :: 0 <= k < |cats| && cats[k] == r.value && forall j :: 0 <= j < k ==> cats[j].id != id
    ensures r.Some? ==> r.value.id == id
    ensures r.None? <==> forall j :: 0 <= j < |cats| ==> cats[j].id != id
  {
    if cats == [] then None
    else if cats[0].id == id then Some(cats[0])
    else
      var r := FindCategory(cats[1..], id);
      if r.Some? then
        var k :| 0 <= k < |cats[1..]| && cats[1..][k] == r.value && forall j :: 0 <= j < k ==> cats[1..][j].id != id;
        assert cats[k + 1] == r.value;
        r
      else r
  }

  /** The category mapper of `handleEditCategory`. */
  function RenameCategory(cats: seq<CustomCategory>, id: string, name: string): (r: seq<CustomCategory>)
    ensures |r| == |cats|
    ensures forall k :: 0 <= k < |cats| && cats[k].id == id ==> r[k] == cats[k].(name := name)
    ensures forall k :: 0 <= k < |cats| && cats[k].id != id ==> r[k] == cats[k]
  {
    if cats == [] then []
    else
      var head := if cats[0].id == id then cats[0].(name := name) else cats[0];
      [head] + RenameCategory(cats[1..], id, name)
  }

  /** The collection mapper of `handleEditCategory`: collections typed with the old name take the new one. */
  function CascadeRename(cols: seq<Collection>, oldName: Option<string>, name: string): (r: seq<Collection>)
    ensures |r| == |cols|
    ensures forall i :: 0 <= i < |cols| ==> r[i] == Retyped(cols[i], oldName, name)
    ensures forall i :: 0 <= i < |cols| && oldName.Some? && cols[i].collectionType == oldName.value ==>
      r[i] == cols[i].(collectionType := name)
    ensures forall i :: 0 <= i < |cols| && !(oldName.Some? && cols[i].collectionType == oldName.value) ==> r[i] == cols[i]
  {
    if cols == [] then []
    else
      [Retyped(cols[0], oldName, name)] + CascadeRename(cols[1..], oldName, name)
  }

  /** One collection through the mapper. */
  function Retyped(c: Collection, oldName: Option<string>, name: string): Collection {
    if oldName.Some? && c.collectionType == oldName.value then c.(collectionType := name) else c
  }

  /** `collections.filter(col => col.type === t).length`. */
  function UsageCount(cols: seq<Collection>, t: string): (n: nat)
    ensures n <= |cols|
    ensures n == 0 <==> forall i :: 0 <= i < |cols| ==> cols[i].collectionType != t
  {
    if cols == [] then 0
    else (if cols[0].collectionType == t then 1 else 0) + UsageCount(cols[1..], t)
  }

  /** A rename moves every use of the old name to the new one. */
  lemma {:induction false} CascadeMovesUsage(cols: seq<Collection>, oldName: string, name: string)
    requires oldName != name
    ensures UsageCount(CascadeRename(cols, Some(oldName), name), oldName) == 0
    ensures UsageCount(CascadeRename(cols, Some(oldName), name), name) == UsageCount(cols, name) + UsageCount(cols, oldName)
  {
    if cols != [] {
      CascadeMovesUsage(cols[1..], oldName, name);
      assert CascadeRename(cols, Some(oldName), name)[1..] == CascadeRename(cols[1..], Some(oldName), name);
    }
  }

  /**
   * Custom and built-in types share one namespace: renaming a custom category
   * named like a built-in type retypes the built-in collections as well.
   */
  lemma CascadeReachesBuiltIn(cols: seq<Collection>, name: string)
    requires name != CONSOLES
    ensures UsageCount(CascadeRename(cols, Some(CONSOLES), name), CONSOLES) == 0
  {
    CascadeMovesUsage(cols, CONSOLES, name);
  }

  /** An unknown id renames nothing. */
  lemma {:induction false} RenameUnknownId(cats: seq<CustomCategory>, cols: seq<Collection>, id: string, name: string)
    requires FindCategory(cats, id).None?
    ensures RenameCategory(cats, id, name) == cats
    ensures CascadeRename(cols, None, name) == cols
  {
  }

  /** The category filter of `handleDeleteCategory`. */
  function RemoveCategory(cats: seq<CustomCategory>, id: string): (r: seq<CustomCategory>)
    ensures IsSubsequence(r, cats)
    ensures forall k :: 0 <= k < |r| ==> r[k].id != id
    ensures forall k :: 0 <= k < |cats| && cats[k].id != id ==> cats[k] in r
    ensures forall x :: multiset(r)[x] == if x.id != id then multiset(cats)[x] else 0
  {
    if cats == [] then []
    else
      var rest := RemoveCategory(cats[1..], id);
      assert multiset(cats) == multiset{cats[0]} + multiset(cats[1..]) by {
        assert cats == [cats[0]] + cats[1..];
      }
      if cats[0].id != id then
        var r := [cats[0]] + rest;
        assert r[0] == cats[0] && r[1..] == rest;
        assert multiset(r) == multiset{cats[0]} + multiset(rest);
        r
      else rest
  }

  /** Removing an id nobody has keeps the list as it is. */
  lemma {:induction false} RemoveAbsentCategory(cats: seq<CustomCategory>, id: string)
    requires forall k :: 0 <= k < |cats| ==> cats[k].id != id
    ensures RemoveCategory(cats, id) == cats
  {
    if cats != [] {
      RemoveAbsentCategory(cats[1..], id);
      assert [cats[0]] + cats[1..] == cats;
    }
  }

  /** What `handleDeleteCategory` did: nothing to delete, refused (the alert with the count), or deleted. */
  datatype DeleteOutcome = NotFound | InUse(count: nat) | Deleted

  /** The collection the legacy migration builds around the saved items. */
  function MigratedCollection(id: string, oldItems: seq<ConsoleItem>, now: string): (c: Collection)
    ensures c.id == id && c.items == oldItems && c.createdAt == now
    ensures c.name == "Minha Coleção" && c.description == "Coleção importada"
    ensures c.collectionType == CONSOLES && c.collectionType != ""
  {
    Collection(id, "Minha Coleção", "Coleção importada", CONSOLES, oldItems, now)
  }

  /** Storage after the save-collections effect: an empty list is never written. */
  function WriteCollections(storage: map<string, Stored>, cols: seq<Collection>): (r: map<string, Stored>)
    ensures |cols| > 0 ==> r.Keys == storage.Keys + {COLLECTIONS_KEY} && r[COLLECTIONS_KEY] == StoredCollections(cols)
    ensures |cols| == 0 ==> r == storage
    ensures forall k :: k in storage && k != COLLECTIONS_KEY ==> r[k] == storage[k]
  {
    if |cols| > 0 then storage[COLLECTIONS_KEY := StoredCollections(cols)] else storage
  }

  /**
   * Storage after the two save effects have run: the categories are always
   * written, the collections only when there is at least one.
   */
  function SavedBoth(storage: map<string, Stored>, cats: seq<CustomCategory>, cols: seq<Collection>): (r: map<string, Stored>)
    ensures r.Keys == storage.Keys + {CATEGORIES_KEY} + (if |cols| > 0 then {COLLECTIONS_KEY} else {})
    ensures r[CATEGORIES_KEY] == StoredCategories(cats)
    ensures |cols| > 0 ==> r[COLLECTIONS_KEY] == StoredCollections(cols)
    ensures |cols| == 0 && COLLECTIONS_KEY in storage ==> r[COLLECTIONS_KEY] == storage[COLLECTIONS_KEY]
    ensures forall k :: k in storage && k != CATEGORIES_KEY && k != COLLECTIONS_KEY ==> r[k] == storage[k]
  {
    WriteCollections(storage[CATEGORIES_KEY := StoredCategories(cats)], cols)
  }

  /** Writing the categories key does not change what the load and migration effect reads. */
  lemma CategoryWriteKeepsLoad(storage: map<string, Stored>, v: Stored)
    ensures var s := storage[CATEGORIES_KEY := v];
      && (HasSavedCollections(s) <==> HasSavedCollections(storage))
      && (HasLegacyItems(s) <==> HasLegacyItems(storage))
      && (FirstVisit(s) <==> FirstVisit(storage))
      && (LoadThrows(s) <==> LoadThrows(storage))
      && (COLLECTIONS_KEY in storage ==> s[COLLECTIONS_KEY] == storage[COLLECTIONS_KEY])
      && (LEGACY_ITEMS_KEY in storage ==> s[LEGACY_ITEMS_KEY] == storage[LEGACY_ITEMS_KEY])
  {
    assert CATEGORIES_KEY[9] != COLLECTIONS_KEY[9] && CATEGORIES_KEY[8] != LEGACY_ITEMS_KEY[8];
  }

  // ---------------------------------------------------------------- the store

  class Store {
    var collections: seq<Collection>
    var activeCollectionId: Option<string>
    var customCategories: seq<CustomCategory>
    var isCreateModalOpen: bool
    var storage: map<string, Stored>

    /** The initial state of the component, over what the browser has saved. */
    constructor (saved: map<string, Stored>)
      ensures collections == [] && activeCollectionId == None && customCategories == []
      ensures !isCreateModalOpen && storage == saved
    {
      collections := [];
      activeCollectionId := None;
      customCategories := [];
      isCreateModalOpen := false;
      storage := saved;
    }

    /**
     * The load-categories effect. `thrown` is the exception of `JSON.parse` on
     * an unparsable value; a parsed value of the wrong shape is ignored.
     */
    method LoadCategories() returns (thrown: bool)
      modifies this
      ensures thrown <==> Unparsable(old(storage), CATEGORIES_KEY)
      ensures Present(storage, CATEGORIES_KEY) && storage[CATEGORIES_KEY].StoredCategories? ==>
        customCategories == storage[CATEGORIES_KEY].categories
      ensures !(Present(storage, CATEGORIES_KEY) && storage[CATEGORIES_KEY].StoredCategories?) ==>
        customCategories == old(customCategories)
      ensures collections == old(collections) && activeCollectionId == old(activeCollectionId)
      ensures isCreateModalOpen == old(isCreateModalOpen) && storage == old(storage)
    {
      thrown := Unparsable(storage, CATEGORIES_KEY);
      if Present(storage, CATEGORIES_KEY) {
        match storage[CATEGORIES_KEY]
        case StoredCategories(saved) => customCategories := saved;
        case _ =>
      }
    }

    /** The save-categories effect: its guard `length >= 0` always holds, so it always writes. */
    method SaveCategories()
      modifies this
      ensures storage == old(storage)[CATEGORIES_KEY := StoredCategories(customCategories)]
      ensures collections == old(collections) && activeCollectionId == old(activeCollectionId)
      ensures customCategories == old(customCategories) && isCreateModalOpen == old(isCreateModalOpen)
    {
      storage := storage[CATEGORIES_KEY := StoredCategories(customCategories)];
    }

    /** The save-collections effect: an empty list is never written. */
    method SaveCollections()
      modifies this
      ensures |collections| > 0 ==> storage == old(storage)[COLLECTIONS_KEY := StoredCollections(collections)]
      ensures |collections| == 0 ==> storage == old(storage)
      ensures collections == old(collections) && activeCollectionId == old(activeCollectionId)
      ensures customCategories == old(customCategories) && isCreateModalOpen == old(isCreateModalOpen)
    {
      if |collections| > 0 {
        storage := storage[COLLECTIONS_KEY := StoredCollections(collections)];
      }
    }

    /**
     * The load and migration effect. Saved collections win; otherwise saved
     * legacy items become one collection and their key is removed; otherwise
     * the create dialog opens. An unparsable value throws (`thrown`) before
     * anything changes; a parsed value of the wrong shape changes nothing.
     */
    method LoadOrMigrate(newId: string, now: string) returns (thrown: bool)
      modifies this
      ensures thrown <==> LoadThrows(old(storage))
      ensures HasSavedCollections(old(storage)) ==>
        var saved := old(storage)[COLLECTIONS_KEY].collections;
        && collections == saved
        && (|saved| > 0 ==> activeCollectionId == Some(saved[0].id) && isCreateModalOpen == old(isCreateModalOpen))
        && (|saved| == 0 ==> activeCollectionId == old(activeCollectionId) && isCreateModalOpen)
        && storage == old(storage)
      ensures HasLegacyItems(old(storage)) ==>
        && collections == [MigratedCollection(newId, old(storage)[LEGACY_ITEMS_KEY].items, now)]
        && activeCollectionId == Some(newId)
        && isCreateModalOpen == old(isCreateModalOpen)
        && storage == old(storage) - {LEGACY_ITEMS_KEY}
      ensures FirstVisit(old(storage)) ==>
        && collections == old(collections) && activeCollectionId == old(activeCollectionId)
        && isCreateModalOpen && storage == old(storage)
      ensures !HasSavedCollections(old(storage)) && !HasLegacyItems(old(storage)) && !FirstVisit(old(storage)) ==>
        && collections == old(collections) && activeCollectionId == old(activeCollectionId)
        && isCreateModalOpen == old(isCreateModalOpen) && storage == old(storage)
      ensures customCategories == old(customCategories)
    {
      thrown := LoadThrows(storage);
      if Present(storage, COLLECTIONS_KEY) {
        match storage[COLLECTIONS_KEY]
        case StoredCollections(saved) =>
          collections := saved;
          if |saved| > 0 {
            activeCollectionId := Some(saved[0].id);
          } else {
            isCreateModalOpen := true;
          }
        case _ =>
      } else if Present(storage, LEGACY_ITEMS_KEY) {
        match storage[LEGACY_ITEMS_KEY]
        case StoredItems(oldItems) =>
          collections := [MigratedCollection(newId, oldItems, now)];
          activeCollectionId := Some(newId);
          storage := storage - {LEGACY_ITEMS_KEY};
        case _ =>
      } else {
        isCreateModalOpen := true;
      }
    }

    /**
     * First render. The effects run in declaration order over the state of the
     * first render: load categories, save categories, load or migrate, save
     * collections. An exception from a load stops the remaining effects
     * (`crashed`), and the component never renders again. Otherwise the save
     * effects run once more for the loaded state.
     */
    method Mount(newId: string, now: string) returns (crashed: bool)
      modifies this
      ensures crashed <==> Unparsable(old(storage), CATEGORIES_KEY) || LoadThrows(old(storage))
      ensures Unparsable(old(storage), CATEGORIES_KEY) ==>
        && storage == old(storage) && customCategories == old(customCategories)
        && collections == old(collections) && activeCollectionId == old(activeCollectionId)
        && isCreateModalOpen == old(isCreateModalOpen)
      ensures !Unparsable(old(storage), CATEGORIES_KEY) && LoadThrows(old(storage)) ==>
        && storage == old(storage)[CATEGORIES_KEY := StoredCategories(old(customCategories))]
        && collections == old(collections) && activeCollectionId == old(activeCollectionId)
        && isCreateModalOpen == old(isCreateModalOpen)
      ensures Present(old(storage), CATEGORIES_KEY) && old(storage)[CATEGORIES_KEY].StoredCategories? ==>
        customCategories == old(storage)[CATEGORIES_KEY].categories
      ensures !(Present(old(storage), CATEGORIES_KEY) && old(storage)[CATEGORIES_KEY].StoredCategories?) ==>
        customCategories == old(customCategories)
      ensures !crashed && HasSavedCollections(old(storage)) ==>
        var saved := old(storage)[COLLECTIONS_KEY].collections;
        && collections == saved
        && (|saved| > 0 ==> activeCollectionId == Some(saved[0].id) && isCreateModalOpen == old(isCreateModalOpen))
        && (|saved| == 0 ==> activeCollectionId == old(activeCollectionId) && isCreateModalOpen)
        && storage == SavedBoth(WriteCollections(old(storage)[CATEGORIES_KEY := StoredCategories(old(customCategories))], old(collections)), customCategories, collections)
      ensures !crashed && HasLegacyItems(old(storage)) ==>
        && collections == [MigratedCollection(newId, old(storage)[LEGACY_ITEMS_KEY].items, now)]
        && activeCollectionId == Some(newId)
        && isCreateModalOpen == old(isCreateModalOpen)
        && storage == SavedBoth(WriteCollections(old(storage)[CATEGORIES_KEY := StoredCategories(old(customCategories))] - {LEGACY_ITEMS_KEY}, old(collections)), customCategories, collections)
        && CurrentItems(collections, activeCollectionId) == old(storage)[LEGACY_ITEMS_KEY].items
      ensures !crashed && FirstVisit(old(storage)) ==>
        && collections == old(collections) && activeCollectionId == old(activeCollectionId)
        && isCreateModalOpen
        && storage == SavedBoth(WriteCollections(old(storage)[CATEGORIES_KEY := StoredCategories(old(customCategories))], old(collections)), customCategories, collections)
      ensures !crashed && !HasSavedCollections(old(storage)) && !HasLegacyItems(old(storage)) && !FirstVisit(old(storage)) ==>
        && collections == old(collections) && activeCollectionId == old(activeCollectionId)
        && isCreateModalOpen == old(isCreateModalOpen)
        && storage == SavedBoth(WriteCollections(old(storage)[CATEGORIES_KEY := StoredCategories(old(customCategories))], old(collections)), customCategories, collections)
    {
      var renderedCategories, renderedCollections := customCategories, collections;
      crashed := LoadCategories();
      if crashed {
        return;
      }
      CategoryWriteKeepsLoad(storage, StoredCategories(renderedCategories));
      storage := storage[CATEGORIES_KEY := StoredCategories(renderedCategories)];
      crashed := LoadOrMigrate(newId, now);
      if crashed {
        return;
      }
      storage := WriteCollections(storage, renderedCollections);
      SaveCategories();
      SaveCollections();
    }

    /** `handleCreateCollection`: append, make active, save. */
    method CreateCollection(c: Collection)
      modifies this
      ensures collections == old(collections) + [c]
      ensures activeCollectionId == Some(c.id)
      ensures storage == old(storage)[COLLECTIONS_KEY := StoredCollections(collections)]
      ensures customCategories == old(customCategories) && isCreateModalOpen == old(isCreateModalOpen)
    {
      collections := collections + [c];
      activeCollectionId := Some(c.id);
      SaveCollections();
    }

    /** `handleAddItem`: without an active id nothing happens. */
    method AddItem(item: ConsoleItem)
      modifies this
      ensures !HasActive(old(activeCollectionId)) ==>
        collections == old(collections) && storage == old(storage)
      ensures HasActive(old(activeCollectionId)) ==>
        && collections == PrependToActive(old(collections), old(activeCollectionId).value, item)
        && (|collections| > 0 ==> storage == old(storage)[COLLECTIONS_KEY := StoredCollections(collections)])
        && (|collections| == 0 ==> storage == old(storage))
      ensures activeCollectionId == old(activeCollectionId) && customCategories == old(customCategories)
      ensures isCreateModalOpen == old(isCreateModalOpen)
    {
      if !HasActive(activeCollectionId) {
        return;
      }
      collections := PrependToActive(collections, activeCollectionId.value, item);
      SaveCollections();
    }

    /** `handleSaveAlert`: without an active id nothing happens. */
    method SaveAlert(itemId: string, alert: PriceAlert)
      modifies this
      ensures !HasActive(old(activeCollectionId)) ==>
        collections == old(collections) && storage == old(storage)
      ensures HasActive(old(activeCollectionId)) ==>
        && collections == SetAlertInActive(old(collections), old(activeCollectionId).value, itemId, alert)
        && (|collections| > 0 ==> storage == old(storage)[COLLECTIONS_KEY := StoredCollections(collections)])
        && (|collections| == 0 ==> storage == old(storage))
      ensures activeCollectionId == old(activeCollectionId) && customCategories == old(customCategories)
      ensures isCreateModalOpen == old(isCreateModalOpen)
    {
      if !HasActive(activeCollectionId) {
        return;
      }
      collections := SetAlertInActive(collections, activeCollectionId.value, itemId, alert);
      SaveCollections();
    }

    /** `handleAddCategory`: append one tag, save. */
    method AddCategory(name: string, id: string, now: string)
      modifies this
      ensures customCategories == old(customCategories) + [CustomCategory(id, name, now)]
      ensures storage == old(storage)[CATEGORIES_KEY := StoredCategories(customCategories)]
      ensures collections == old(collections) && activeCollectionId == old(activeCollectionId)
      ensures isCreateModalOpen == old(isCreateModalOpen)
    {
      customCategories := customCategories + [CustomCategory(id, name, now)];
      SaveCategories();
    }

    /**
     * `handleEditCategory`: rename the tag and retype the collections that used
     * its old name, looked up in the categories as they were before the rename.
     */
    method EditCategory(id: string, name: string)
      modifies this
      ensures customCategories == RenameCategory(old(customCategories), id, name)
      ensures var found := FindCategory(old(customCategories), id);
        collections == CascadeRename(old(collections), if found.Some? then Some(found.value.name) else None, name)
      ensures storage == SavedBoth(old(storage), customCategories, collections)
      ensures activeCollectionId == old(activeCollectionId) && isCreateModalOpen == old(isCreateModalOpen)
    {
      var oldCategory := FindCategory(customCategories, id);
      var oldName := if oldCategory.Some? then Some(oldCategory.value.name) else None;
      customCategories := RenameCategory(customCategories, id, name);
      collections := CascadeRename(collections, oldName, name);
      SaveCategories();
      SaveCollections();
    }

    /** `handleDeleteCategory`: refused while a collection has the category's name as its type. */
    method DeleteCategory(id: string) returns (outcome: DeleteOutcome)
      modifies this
      ensures FindCategory(old(customCategories), id).None? ==>
        outcome == NotFound && customCategories == old(customCategories) && storage == old(storage)
      ensures FindCategory(old(customCategories), id).Some? ==>
        var n := UsageCount(collections, FindCategory(old(customCategories), id).value.name);
        && (n > 0 ==> outcome == InUse(n) && customCategories == old(customCategories) && storage == old(storage))
        && (n == 0 ==>
              && outcome == Deleted
              && customCategories == RemoveCategory(old(customCategories), id)
              && storage == old(storage)[CATEGORIES_KEY := StoredCategories(customCategories)])
      ensures collections == old(collections) && activeCollectionId == old(activeCollectionId)
      ensures isCreateModalOpen == old(isCreateModalOpen)
    {
      var categoryToDelete := FindCategory(customCategories, id);
      if categoryToDelete.None? {
        return NotFound;
      }
      var count := UsageCount(collections, categoryToDelete.value.name);
      if count > 0 {
        return InUse(count);
      }
      customCategories := RemoveCategory(customCategories, id);
      SaveCategories();
      outcome := Deleted;
    }
  }
}
