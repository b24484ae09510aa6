/**
 * The add-item dialog: a photo step that asks the model to identify the item,
 * a details form, and a save that prices the item and hands it to the store.
 */
module AddItemModal {
  import opened Wrappers
  import opened Strings
  import opened Types
  import opened AiResponse
  import opened GeminiService

  /** The dialog's steps; VALUATION is declared but never entered. */
  datatype Step = Photo | Details | Valuation

  /** The image shown when the item has no photo. */
  const PlaceholderImage: string := "https://picsum.photos/400/300"

  /** The item type the form starts with for a collection type. */
  function DefaultItemType(collectionType: string): (t: ConsoleType)
    ensures t == Game <==> collectionType == GAMES
    ensures t == Accessory <==> collectionType == ACCESSORIES
    ensures t == Home <==> collectionType == CONSOLES
    ensures t == Other <==> collectionType != GAMES && collectionType != ACCESSORIES && collectionType != CONSOLES
    ensures t != Handheld
  {
    if collectionType == GAMES then Game
    else if collectionType == ACCESSORIES then Accessory
    else if collectionType == CONSOLES then Home
    else Other
  }

  /**
   * `newItem` of `handleSave`: the form's fields and the valuation's prices.
   * `addedAt` and `updatedAt` are the two separate readings of the clock.
   */
  function BuildItem(id: string, name: string, manufacturer: string, itemType: ConsoleType, condition: Condition,
                     image: Option<string>, valuation: PriceEstimate, addedAt: string, updatedAt: string): (item: ConsoleItem)
    ensures item.id == id && item.name == name && item.manufacturer == manufacturer
    ensures item.itemType == itemType && item.condition == condition && item.addedAt == addedAt
    ensures image.Some? && image.value != "" ==> item.imageUrl == image.value
    ensures image.None? || image.value == "" ==> item.imageUrl == PlaceholderImage
    ensures item.priceAlert.None? && item.valuation.Some?
    ensures var v := item.valuation.value;
      && v.currency == "BRL" && v.lastUpdated == updatedAt
      && v.minPrice == valuation.min && v.maxPrice == valuation.max && v.averagePrice == valuation.avg
      && v.reasoning == valuation.reasoning && v.sources == valuation.sources
  {
    var imageUrl := if image.Some? && image.value != "" then image.value else PlaceholderImage;
    ConsoleItem(id, name, manufacturer, itemType, condition, imageUrl,
      Some(ValuationData("BRL", valuation.min, valuation.max, valuation.avg, updatedAt, valuation.sources, valuation.reasoning)),
      None, addedAt)
  }

  /** The stored item's price is the valuation's average, so it counts at that value everywhere. */
  lemma BuiltItemPrice(id: string, name: string, manufacturer: string, itemType: ConsoleType, condition: Condition,
                       image: Option<string>, valuation: PriceEstimate, addedAt: string, updatedAt: string)
    ensures ItemPrice(BuildItem(id, name, manufacturer, itemType, condition, image, valuation, addedAt, updatedAt)) == valuation.avg
  {
  }

  /** For a data URI `header,payload` the identification is sent exactly the payload. */
  lemma PayloadOfDataUri(header: string, payload: string)
    requires forall k :: 0 <= k < |header| ==> header[k] != ','
    requires forall k :: 0 <= k < |payload| ==> payload[k] != ','
    ensures SecondField(header + [','] + payload, ',') == Some(payload)
  {
    SecondFieldOfThree(header, payload, [], ',');
  }

  class AddItemForm {
    var step: Step
    var image: Option<string>
    var loading: bool
    var name: string
    var manufacturer: string
    var itemType: ConsoleType
    var condition: Condition

    constructor ()
      ensures step == Photo && image == None && !loading
      ensures name == "" && manufacturer == "" && itemType == Home && condition == Loose
    {
      step := Photo;
      image := None;
      loading := false;
      name := "";
      manufacturer := "";
      itemType := Home;
      condition := Loose;
    }

    /** The save button is enabled once a name is entered. */
    predicate SaveEnabled()
      reads this
      ensures SaveEnabled() <==> |name| > 0
    {
      name != ""
    }

    /** The effect run when the dialog opens or the collection type changes. */
    method ApplyDefaultType(collectionType: string)
      modifies this
      ensures itemType == DefaultItemType(collectionType)
      ensures step == old(step) && image == old(image) && loading == old(loading)
      ensures name == old(name) && manufacturer == old(manufacturer) && condition == old(condition)
    {
      itemType := DefaultItemType(collectionType);
    }

    /** `reset`: back to the photo step with an empty form; the item type is kept. */
    method Reset()
      modifies this
      ensures step == Photo && image == None && !loading
      ensures name == "" && manufacturer == "" && condition == Loose
      ensures itemType == old(itemType)
    {
      step := Photo;
      image := None;
      name := "";
      manufacturer := "";
      condition := Loose;
      loading := false;
    }

    /** The "fill in by hand" button of the photo step. */
    method SkipToDetails()
      modifies this
      ensures step == Details
      ensures image == old(image) && loading == old(loading) && name == old(name)
      ensures manufacturer == old(manufacturer) && itemType == old(itemType) && condition == old(condition)
    {
      step := Details;
    }

    /**
     * `handleFileChange` once the reader is done: keep the data URI as the image,
     * send its second comma-separated field for identification, copy what comes
     * back, and move to the details step whether or not identification worked.
     */
    method HandleFileChange(dataUri: Option<string>, collectionType: string,
                            identify: (Option<string>, string) -> Result<Identification, IdentifyError>)
      modifies this
      ensures dataUri.None? ==>
        && step == old(step) && image == old(image) && loading == old(loading) && name == old(name)
        && manufacturer == old(manufacturer) && itemType == old(itemType) && condition == old(condition)
      ensures dataUri.Some? ==>
        var outcome := identify(SecondField(dataUri.value, ','), collectionType);
        && step == Details && image == dataUri && !loading && condition == old(condition)
        && (outcome.Success? ==>
              name == outcome.value.name && manufacturer == outcome.value.manufacturer && itemType == outcome.value.itemType)
        && (outcome.Failure? ==>
              name == old(name) && manufacturer == old(manufacturer) && itemType == old(itemType))
    {
      if dataUri.None? {
        return;
      }
      loading := true;
      image := dataUri;
      var pureBase64 := SecondField(dataUri.value, ',');
      var identity := identify(pureBase64, collectionType);
      if identity.Success? {
        name := identity.value.name;
        manufacturer := identity.value.manufacturer;
        itemType := identity.value.itemType;
      }
      step := Details;
      loading := false;
    }

    /**
     * The `try` block of `handleSave` once the valuation is awaited: build the
     * item, hand it over, reset and close. None stands for a throw inside the
     * block (the id generator or the store's handler); then the alert shows,
     * nothing is added and the form stays.
     */
    method HandleSave(valuation: Option<PriceEstimate>, id: string, addedAt: string, updatedAt: string) returns (added: Option<ConsoleItem>, closed: bool)
      modifies this
      ensures valuation.None? ==>
        && added.None? && !closed && !loading
        && step == old(step) && image == old(image) && name == old(name)
        && manufacturer == old(manufacturer) && itemType == old(itemType) && condition == old(condition)
      ensures valuation.Some? ==>
        && added == Some(BuildItem(id, old(name), old(manufacturer), old(itemType), old(condition), old(image), valuation.value, addedAt, updatedAt))
        && closed && !loading
        && step == Photo && image == None && name == "" && manufacturer == "" && condition == Loose
        && itemType == old(itemType)
    {
      loading := true;
      if valuation.None? {
        added, closed := None, false;
      } else {
        var newItem := BuildItem(id, name, manufacturer, itemType, condition, image, valuation.value, addedAt, updatedAt);
        added := Some(newItem);
        Reset();
        closed := true;
      }
      loading := false;
    }

    /**
     * `handleSave` with the market valuation of the service. The valuation never
     * throws, so the item is always added and the dialog always closes: a missing
     * answer, one without braces or one that does not parse is saved at price zero.
     */
    method SaveWithValuation(response: Response, parse: string -> Option<ParsedPrices>,
                             id: string, addedAt: string, updatedAt: string)
      returns (estimate: PriceEstimate, added: Option<ConsoleItem>, closed: bool)
      modifies this
      ensures closed && added.Some? && !loading
      ensures added.value == BuildItem(id, old(name), old(manufacturer), old(itemType), old(condition), old(image), estimate, addedAt, updatedAt)
      ensures !HasText(response) ==> estimate == ErrorEstimate
      ensures HasText(response) && JsonMatch(response.text.value).None? ==> ZeroPrices(estimate)
      ensures HasText(response) && JsonMatch(response.text.value).Some? && parse(JsonMatch(response.text.value).value).None? ==>
        estimate == ErrorEstimate
      ensures ZeroPrices(estimate) ==> ItemPrice(added.value) == 0
      ensures added.value.valuation.value.reasoning == estimate.reasoning != ""
      ensures step == Photo && image == None && name == "" && manufacturer == "" && condition == Loose
      ensures itemType == old(itemType)
    {
      estimate := GetMarketValuation(response, parse);
      added, closed := HandleSave(Some(estimate), id, addedAt, updatedAt);
      BuiltItemPrice(id, old(name), old(manufacturer), old(itemType), old(condition), old(image), estimate, addedAt, updatedAt);
    }
  }
}
