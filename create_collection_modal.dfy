/**
 * The create-collection dialog: name, description and one of the built-in
 * collection types, turned into an empty collection on submit.
 */
module CreateCollectionModal {
  import opened Types

  /** `newCollection` of `handleSubmit`. */
  function NewCollection(id: string, name: string, description: string, collectionType: string, now: string): (c: Collection)
    ensures c.items == []
    ensures c.id == id && c.name == name && c.description == description
    ensures c.collectionType == collectionType && c.createdAt == now
  {
    Collection(id, name, description, collectionType, [], now)
  }

  /** The type selector lists the built-in values, in declaration order. */
  function SelectableTypes(): (ts: seq<string>)
    ensures ts == [CONSOLES, GAMES, ACCESSORIES, MIXED]
    ensures forall i, j :: 0 <= i < j < |ts| ==> ts[i] != ts[j]
  {
    BuiltInCollectionTypesDistinct();
    BuiltInCollectionTypes
  }

  class CollectionForm {
    var name: string
    var description: string
    var collectionType: string

    constructor ()
      ensures name == "" && description == "" && collectionType == CONSOLES
      ensures Valid()
    {
      name := "";
      description := "";
      collectionType := CONSOLES;
    }

    /** The form only ever holds a type offered by the selector. */
    ghost predicate Valid()
      reads this
    {
      collectionType in SelectableTypes()
    }

    /** The submit button is enabled once a name is entered. */
    predicate SubmitEnabled()
      reads this
      ensures SubmitEnabled() <==> |name| > 0
    {
      name != ""
    }

    method SetName(value: string)
      modifies this
      ensures name == value && description == old(description) && collectionType == old(collectionType)
    {
      name := value;
    }

    method SetDescription(value: string)
      modifies this
      ensures description == value && name == old(name) && collectionType == old(collectionType)
    {
      description := value;
    }

    /** The type selector. */
    method SetType(value: string)
      requires value in SelectableTypes()
      modifies this
      ensures Valid()
      ensures collectionType == value && name == old(name) && description == old(description)
    {
      collectionType := value;
    }

    /** `handleSubmit`: emit the new, empty collection and clear the form. */
    method HandleSubmit(id: string, now: string) returns (created: Collection)
      requires Valid()
      modifies this
      ensures created == NewCollection(id, old(name), old(description), old(collectionType), now)
      ensures created.collectionType in BuiltInCollectionTypes
      ensures name == "" && description == "" && collectionType == CONSOLES
      ensures Valid()
    {
      created := NewCollection(id, name, description, collectionType, now);
      name := "";
      description := "";
      collectionType := CONSOLES;
    }
  }
}
