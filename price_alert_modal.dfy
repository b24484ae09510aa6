/**
 * The price-alert dialog: an on/off switch and a percentage threshold, the
 * trigger prices shown for them, and the alert record it saves.
 */
module PriceAlertModal {
  import opened Wrappers
  import opened Types

  /** The bounds of the threshold slider. */
  const MinThreshold: int := 1
  const MaxThreshold: int := 50
  const DefaultThreshold: int := 10

  /** `currentPrice`: the valuation's average, or 0 without a valuation. */
  function CurrentPrice(item: ConsoleItem): (p: int)
    ensures item.valuation.None? ==> p == 0
    ensures item.valuation.Some? ==> p == item.valuation.value.averagePrice
  {
    ItemPrice(item)
  }

  /** `currentPrice * (1 + threshold / 100)`. */
  function UpperTrigger(price: int, threshold: int): (r: real)
    ensures threshold == 0 ==> r == price as real
    ensures price >= 0 && threshold >= 0 ==> r >= price as real
  {
    var p, f := price as real, threshold as real / 100.0;
    if price >= 0 && threshold >= 0 then NonNegativeProduct(p, f); p * (1.0 + f)
    else p * (1.0 + f)
  }

  /** `currentPrice * (1 - threshold / 100)`. */
  function LowerTrigger(price: int, threshold: int): (r: real)
    ensures threshold == 0 ==> r == price as real
    ensures price >= 0 && 0 <= threshold <= 100 ==> 0.0 <= r <= price as real
  {
    var p, f := price as real, threshold as real / 100.0;
    if price >= 0 && 0 <= threshold <= 100 then
      NonNegativeProduct(p, f);
      NonNegativeProduct(p, 1.0 - f);
      p * (1.0 - f)
    else p * (1.0 - f)
  }

  /** Within the slider's range the triggers bracket the price, and the lower one is at least half of it. */
  lemma TriggersBracketPrice(price: int, threshold: int)
    requires price >= 0 && MinThreshold <= threshold <= MaxThreshold
    ensures LowerTrigger(price, threshold) <= price as real <= UpperTrigger(price, threshold)
    ensures LowerTrigger(price, threshold) >= price as real / 2.0
    ensures UpperTrigger(price, threshold) - price as real == price as real - LowerTrigger(price, threshold)
  {
    var p, f := price as real, threshold as real / 100.0;
    assert 0.0 < f <= 0.5;
    assert LowerTrigger(price, threshold) == p - p * f;
    assert UpperTrigger(price, threshold) == p + p * f;
    NonNegativeProduct(p, f);
    NonNegativeProduct(p, 0.5 - f);
    assert p * (0.5 - f) == p * 0.5 - p * f;
  }

  lemma NonNegativeProduct(a: real, b: real)
    requires a >= 0.0 && b >= 0.0
    ensures a * b >= 0.0
  {
  }

  class AlertForm {
    var enabled: bool
    var threshold: int

    constructor ()
      ensures !enabled && threshold == DefaultThreshold
    {
      enabled := false;
      threshold := DefaultThreshold;
    }

    /** The effect run when the dialog opens: take the item's alert, or the defaults. */
    method Init(item: Option<ConsoleItem>)
      modifies this
      ensures item.Some? && item.value.priceAlert.Some? ==>
        enabled == item.value.priceAlert.value.enabled && threshold == item.value.priceAlert.value.thresholdPercentage
      ensures item.None? || item.value.priceAlert.None? ==> !enabled && threshold == DefaultThreshold
    {
      if item.Some? && item.value.priceAlert.Some? {
        enabled := item.value.priceAlert.value.enabled;
        threshold := item.value.priceAlert.value.thresholdPercentage;
      } else {
        enabled := false;
        threshold := DefaultThreshold;
      }
    }

    /** The switch. */
    method Toggle()
      modifies this
      ensures enabled == !old(enabled) && threshold == old(threshold)
    {
      enabled := !enabled;
    }

    /** The slider, whose input only produces values in its range. */
    method SetThreshold(value: int)
      requires MinThreshold <= value <= MaxThreshold
      modifies this
      ensures threshold == value && enabled == old(enabled)
    {
      threshold := value;
    }

    /** `handleSave`: the item's id and the alert the form describes, priced at the current price. */
    method HandleSave(item: ConsoleItem) returns (itemId: string, alert: PriceAlert)
      ensures itemId == item.id
      ensures alert.enabled == enabled && alert.thresholdPercentage == threshold
      ensures alert.lastCheckedPrice == CurrentPrice(item)
    {
      itemId := item.id;
      alert := PriceAlert(enabled, threshold, CurrentPrice(item));
    }
  }

  /** Opening the dialog on an item and saving straight away stores back the alert it had, re-priced. */
  method OpenAndSave(item: ConsoleItem) returns (alert: PriceAlert)
    ensures item.priceAlert.Some? ==>
      alert == item.priceAlert.value.(lastCheckedPrice := CurrentPrice(item))
    ensures item.priceAlert.None? ==> alert == PriceAlert(false, DefaultThreshold, CurrentPrice(item))
  {
    var form := new AlertForm();
    form.Init(Some(item));
    var _, a := form.HandleSave(item);
    alert := a;
  }
}
