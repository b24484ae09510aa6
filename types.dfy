/**
 * The catalog's data model: item, collection and category records, the three
 * enumerations with their display strings, and the gamification records.
 * Prices are whole reais (`int`); timestamps are ISO strings supplied by the caller.
 */
module Types {
  import opened Wrappers

  /** Kind of a catalogued item; `Value` is the enum's string value. */
  datatype ConsoleType = Home | Handheld | Game | Accessory | Other {
    function Value(): string {
      match this
      case Home => "Mesa"
      case Handheld => "Portátil"
      case Game => "Jogo"
      case Accessory => "Acessório"
      case Other => "Outro"
    }
  }

  datatype Condition = New | CompleteInBox | Loose | Broken {
    function Value(): string {
      match this
      case New => "Novo/Lacrado"
      case CompleteInBox => "Completo na Caixa"
      case Loose => "Item Solto"
      case Broken => "Para Peças/Quebrado"
    }
  }

  /**
   * A collection's type is a plain string: one of the four built-in values
   * below, or the name of a custom category written by the rename cascade.
   */
  const CONSOLES: string := "Consoles"
  const GAMES: string := "Jogos"
  const ACCESSORIES: string := "Acessórios"
  const MIXED: string := "Misto"

  const BuiltInCollectionTypes: seq<string> := [CONSOLES, GAMES, ACCESSORIES, MIXED]

  datatype ValuationData = ValuationData(
    currency: string,
    minPrice: int,
    maxPrice: int,
    averagePrice: int,
    lastUpdated: string,
    sources: seq<string>,
    reasoning: string)

  datatype PriceAlert = PriceAlert(enabled: bool, thresholdPercentage: int, lastCheckedPrice: int)

  datatype ConsoleItem = ConsoleItem(
    id: string,
    name: string,
    manufacturer: string,
    itemType: ConsoleType,
    condition: Condition,
    imageUrl: string,
    valuation: Option<ValuationData>,
    priceAlert: Option<PriceAlert>,
    addedAt: string)

  /** A collection owns an ordered sequence of items, newest first. */
  datatype Collection = Collection(
    id: string,
    name: string,
    description: string,
    collectionType: string,
    items: seq<ConsoleItem>,
    createdAt: string)

  datatype CustomCategory = CustomCategory(id: string, name: string, createdAt: string)

  datatype Achievement = Achievement(
    id: string,
    title: string,
    description: string,
    imageUrl: string,
    isUnlocked: bool)

  datatype UserLevel = UserLevel(
    currentLevel: int,
    currentTitle: string,
    xpCurrent: int,
    xpNextLevel: int,
    progressPercent: real)

  lemma ConsoleTypeValuesDistinct(a: ConsoleType, b: ConsoleType)
    ensures a.Value() == b.Value() <==> a == b
  {
  }

  lemma ConditionValuesDistinct(a: Condition, b: Condition)
    ensures a.Value() == b.Value() <==> a == b
  {
  }

  lemma BuiltInCollectionTypesDistinct()
    ensures |BuiltInCollectionTypes| == 4
    ensures forall i, j :: 0 <= i < j < 4 ==> BuiltInCollectionTypes[i] != BuiltInCollectionTypes[j]
  {
  }

  /** `item.valuation?.averagePrice || 0`: a missing valuation counts as zero. */
  function ItemPrice(item: ConsoleItem): (p: int)
    ensures item.valuation.None? ==> p == 0
    ensures item.valuation.Some? ==> p == item.valuation.value.averagePrice
  {
    match item.valuation
    case None => 0
    case Some(v) => v.averagePrice
  }

  predicate NonNegativePrices(items: seq<ConsoleItem>) {
    forall i :: 0 <= i < |items| ==> ItemPrice(items[i]) >= 0
  }

  /** Sum of the items' average prices (the `reduce` in the dashboard and the leveling code). */
  function TotalValue(items: seq<ConsoleItem>): (t: int)
    ensures items == [] ==> t == 0
    ensures NonNegativePrices(items) ==> t >= 0
    ensures NonNegativePrices(items) ==> forall i :: 0 <= i < |items| ==> ItemPrice(items[i]) <= t
  {
    if items == [] then 0 else ItemPrice(items[0]) + TotalValue(items[1..])
  }

  lemma {:induction false} TotalValueConcat(a: seq<ConsoleItem>, b: seq<ConsoleItem>)
    ensures TotalValue(a + b) == TotalValue(a) + TotalValue(b)
  {
    if a == [] {
      assert a + b == b;
    } else {
      assert (a + b)[1..] == a[1..] + b;
      TotalValueConcat(a[1..], b);
    }
  }
}
