/**
 * The category manager dialog: the new-category input, the inline rename
 * state, and the confirmation before a delete. Each handler reports what it
 * emits to the store.
 */
module CategoryManager {
  import opened Wrappers
  import opened Strings

  /** A request the dialog sends to the store. */
  datatype Emitted = AddCategory(name: string) | EditCategory(id: string, name: string) | DeleteCategory(id: string)

  class CategoryForm {
    var newCategoryName: string
    var editingId: Option<string>
    var editingName: string

    constructor ()
      ensures newCategoryName == "" && editingId == None && editingName == ""
    {
      newCategoryName := "";
      editingId := None;
      editingName := "";
    }

    /** The add button is enabled once the name has something besides white space. */
    predicate AddEnabled()
      reads this
      ensures AddEnabled() <==> exists i :: 0 <= i < |newCategoryName| && !IsSpace(newCategoryName[i])
    {
      Trim(newCategoryName) != ""
    }

    /** `handleAdd`: emit the trimmed name and clear the input, unless it is blank. */
    method HandleAdd() returns (emitted: Option<Emitted>)
      modifies this
      ensures old(Trim(newCategoryName)) != "" ==>
        emitted == Some(AddCategory(Trim(old(newCategoryName)))) && newCategoryName == ""
      ensures old(Trim(newCategoryName)) == "" ==> emitted == None && newCategoryName == old(newCategoryName)
      ensures editingId == old(editingId) && editingName == old(editingName)
    {
      var trimmed := Trim(newCategoryName);
      if trimmed != "" {
        emitted := Some(AddCategory(trimmed));
        newCategoryName := "";
      } else {
        emitted := None;
      }
    }

    /** `handleEdit`: start renaming a category, prefilled with its name. */
    method HandleEdit(id: string, currentName: string)
      modifies this
      ensures editingId == Some(id) && editingName == currentName
      ensures newCategoryName == old(newCategoryName)
    {
      editingId := Some(id);
      editingName := currentName;
    }

    /**
     * `handleSaveEdit`: emit the rename and leave editing, but only with an id
     * (the empty id is falsy) and a name that is not blank; otherwise nothing changes.
     */
    method HandleSaveEdit() returns (emitted: Option<Emitted>)
      modifies this
      ensures var ok := old(editingId).Some? && old(editingId).value != "" && Trim(old(editingName)) != "";
        && (ok ==> emitted == Some(EditCategory(old(editingId).value, Trim(old(editingName))))
                   && editingId == None && editingName == "")
        && (!ok ==> emitted == None && editingId == old(editingId) && editingName == old(editingName))
      ensures newCategoryName == old(newCategoryName)
    {
      if editingId.Some? && editingId.value != "" && Trim(editingName) != "" {
        emitted := Some(EditCategory(editingId.value, Trim(editingName)));
        editingId := None;
        editingName := "";
      } else {
        emitted := None;
      }
    }

    /** `handleCancelEdit`. */
    method HandleCancelEdit()
      modifies this
      ensures editingId == None && editingName == ""
      ensures newCategoryName == old(newCategoryName)
    {
      editingId := None;
      editingName := "";
    }
  }

  /** The delete button: the delete is emitted only when the confirmation comes back true. */
  method ConfirmDelete(id: string, confirmed: bool) returns (emitted: Option<Emitted>)
    ensures confirmed <==> emitted.Some?
    ensures emitted.Some? ==> emitted.value == DeleteCategory(id)
  {
    if confirmed {
      emitted := Some(DeleteCategory(id));
    } else {
      emitted := None;
    }
  }

}
