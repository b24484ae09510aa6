/**
 * The edit-item dialog: a form over name, manufacturer, type and condition,
 * filled from the item being edited and saved back over it.
 */
module EditItemModal {
  import opened Wrappers
  import opened Types

  /** `updatedItem`: the item with the four form fields written over it. */
  function UpdatedItem(item: ConsoleItem, name: string, manufacturer: string, itemType: ConsoleType, condition: Condition): (r: ConsoleItem)
    ensures r.name == name && r.manufacturer == manufacturer && r.itemType == itemType && r.condition == condition
    ensures r.id == item.id && r.imageUrl == item.imageUrl && r.valuation == item.valuation
    ensures r.priceAlert == item.priceAlert && r.addedAt == item.addedAt
  {
    item.(name := name, manufacturer := manufacturer, itemType := itemType, condition := condition)
  }

  /** Saving the form as it was filled gives the item back unchanged. */
  lemma UneditedSaveIsIdentity(item: ConsoleItem)
    ensures UpdatedItem(item, item.name, item.manufacturer, item.itemType, item.condition) == item
  {
  }

  /** Editing never changes what the item is worth. */
  lemma EditKeepsPrice(item: ConsoleItem, name: string, manufacturer: string, itemType: ConsoleType, condition: Condition)
    ensures ItemPrice(UpdatedItem(item, name, manufacturer, itemType, condition)) == ItemPrice(item)
  {
  }

  class EditItemForm {
    var name: string
    var manufacturer: string
    var itemType: ConsoleType
    var condition: Condition

    constructor ()
      ensures name == "" && manufacturer == "" && itemType == Home && condition == Loose
    {
      name := "";
      manufacturer := "";
      itemType := Home;
      condition := Loose;
    }

    /** The save button is enabled once a name is entered. */
    predicate SaveEnabled()
      reads this
      ensures SaveEnabled() <==> |name| > 0
    {
      name != ""
    }

    /** The effect run when the item changes: copy its fields into the form; with no item keep the form. */
    method Init(item: Option<ConsoleItem>)
      modifies this
      ensures item.Some? ==>
        name == item.value.name && manufacturer == item.value.manufacturer
        && itemType == item.value.itemType && condition == item.value.condition
      ensures item.None? ==>
        name == old(name) && manufacturer == old(manufacturer) && itemType == old(itemType) && condition == old(condition)
    {
      if item.Some? {
        name := item.value.name;
        manufacturer := item.value.manufacturer;
        itemType := item.value.itemType;
        condition := item.value.condition;
      }
    }

    /** `handleSave`: with no item nothing is emitted. */
    method HandleSave(item: Option<ConsoleItem>) returns (saved: Option<ConsoleItem>, closed: bool)
      ensures item.None? ==> saved.None? && !closed
      ensures item.Some? ==> saved == Some(UpdatedItem(item.value, name, manufacturer, itemType, condition)) && closed
    {
      if item.None? {
        return None, false;
      }
      saved := Some(UpdatedItem(item.value, name, manufacturer, itemType, condition));
      closed := true;
    }
  }

  /** Opening the dialog on an item and saving without edits gives the item back. */
  method OpenAndSave(item: ConsoleItem) returns (saved: Option<ConsoleItem>)
    ensures saved == Some(item)
  {
    var form := new EditItemForm();
    form.Init(Some(item));
    var closed;
    saved, closed := form.HandleSave(Some(item));
    UneditedSaveIsIdentity(item);
  }
}
