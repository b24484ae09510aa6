/**
 * The gamification engine: rarity bands for a single price, the level / XP /
 * title derived from an item list, and the fixed table of eight achievements.
 * Everything here is a pure function of its input.
 */
module Gamification {
  import opened Wrappers
  import opened Types
  import opened Strings

  // ---------------------------------------------------------------- rarity

  /** The five rarity bands, from the highest down. */
  datatype Rarity = Legendary | Epic | Rare | Uncommon | Common {
    function Name(): string {
      match this
      case Legendary => "LENDÁRIO"
      case Epic => "ÉPICO"
      case Rare => "RARO"
      case Uncommon => "INCOMUM"
      case Common => "COMUM"
    }
    function Style(): string {
      match this
      case Legendary => "border-4 border-dashed border-gb-red bg-gb-paper"
      case Epic => "border-4 border-double border-gb-blue"
      case Rare => "border-2 border-gb-ink"
      case Uncommon => "border border-gb-ink"
      case Common => "border border-gb-ink opacity-80"
    }
    /** Position of the band, 0 for Common up to 4 for Legendary. */
    function Rank(): nat {
      match this
      case Common => 0
      case Uncommon => 1
      case Rare => 2
      case Epic => 3
      case Legendary => 4
    }
  }

  /** The band of a price: each band is an interval closed at its lower bound. */
  function RarityOf(price: int): (r: Rarity)
    ensures r == Legendary <==> price >= 5000
    ensures r == Epic <==> 1500 <= price < 5000
    ensures r == Rare <==> 400 <= price < 1500
    ensures r == Uncommon <==> 100 <= price < 400
    ensures r == Common <==> price < 100
  {
    if price >= 5000 then Legendary
    else if price >= 1500 then Epic
    else if price >= 400 then Rare
    else if price >= 100 then Uncommon
    else Common
  }

  /** `getRarityStyle`, an if-chain of its own. */
  function RarityStyle(price: int): (style: string)
    ensures style == RarityOf(price).Style()
  {
    if price >= 5000 then "border-4 border-dashed border-gb-red bg-gb-paper"
    else if price >= 1500 then "border-4 border-double border-gb-blue"
    else if price >= 400 then "border-2 border-gb-ink"
    else if price >= 100 then "border border-gb-ink"
    else "border border-gb-ink opacity-80"
  }

  /** `getRarityName`, an if-chain of its own. */
  function RarityName(price: int): (name: string)
    ensures name == RarityOf(price).Name()
  {
    if price >= 5000 then "LENDÁRIO"
    else if price >= 1500 then "ÉPICO"
    else if price >= 400 then "RARO"
    else if price >= 100 then "INCOMUM"
    else "COMUM"
  }

  lemma RarityBoundaries()
    ensures RarityName(1499) == "RARO" && RarityName(1500) == "ÉPICO"
    ensures RarityName(99) == "COMUM" && RarityName(100) == "INCOMUM"
    ensures RarityName(399) == "INCOMUM" && RarityName(400) == "RARO"
    ensures RarityName(4999) == "ÉPICO" && RarityName(5000) == "LENDÁRIO"
  {
  }

  /** A higher price never lands in a lower band. */
  lemma RarityMonotone(p: int, q: int)
    requires p <= q
    ensures RarityOf(p).Rank() <= RarityOf(q).Rank()
  {
  }

  // ---------------------------------------------------------------- level

  const XpPerItem: int := 500
  const XpPerLevel: int := 2500

  /** `items.length * 500 + Math.floor(totalValue / 5)`; `/` on int is floor division here. */
  function TotalXp(items: seq<ConsoleItem>): (xp: int)
    ensures 5 * (xp - |items| * XpPerItem) <= TotalValue(items) < 5 * (xp - |items| * XpPerItem) + 5
    ensures NonNegativePrices(items) ==> xp >= |items| * XpPerItem
  {
    |items| * XpPerItem + TotalValue(items) / 5
  }

  /** The title chosen by `calculateLevel`'s chain of overriding `if`s, written as a sequence of rebindings. */
  function Title(level: int): (title: string)
    ensures level < 5 ==> title == "NOVATO"
    ensures 5 <= level < 10 ==> title == "COLECIONADOR"
    ensures 10 <= level < 20 ==> title == "CAÇADOR"
    ensures 20 <= level < 30 ==> title == "CURADOR"
    ensures 30 <= level < 50 ==> title == "HISTORIADOR"
    ensures level >= 50 ==> title == "MESTRE 8-BIT"
  {
    var t0 := "NOVATO";
    var t1 := if level >= 5 then "COLECIONADOR" else t0;
    var t2 := if level >= 10 then "CAÇADOR" else t1;
    var t3 := if level >= 20 then "CURADOR" else t2;
    var t4 := if level >= 30 then "HISTORIADOR" else t3;
    if level >= 50 then "MESTRE 8-BIT" else t4
  }

  /** The titles in rising order; `TitleRank` is the position of a level's title. */
  const Titles: seq<string> := ["NOVATO", "COLECIONADOR", "CAÇADOR", "CURADOR", "HISTORIADOR", "MESTRE 8-BIT"]

  function TitleRank(level: int): (k: nat)
    ensures k < |Titles| && Titles[k] == Title(level)
  {
    if level >= 50 then 5
    else if level >= 30 then 4
    else if level >= 20 then 3
    else if level >= 10 then 2
    else if level >= 5 then 1
    else 0
  }

  /** `calculateLevel`. */
  function CalculateLevel(items: seq<ConsoleItem>): (u: UserLevel)
    ensures u.xpNextLevel == XpPerLevel
    ensures u.currentLevel == TotalXp(items) / XpPerLevel + 1
    ensures (u.currentLevel - 1) * XpPerLevel + u.xpCurrent == TotalXp(items)
    ensures 0 <= u.xpCurrent < XpPerLevel
    ensures u.progressPercent == u.xpCurrent as real * 100.0 / XpPerLevel as real
    ensures 0.0 <= u.progressPercent < 100.0
    ensures u.currentTitle == Title(u.currentLevel)
    ensures NonNegativePrices(items) ==> u.currentLevel >= 1
  {
    var totalXp := TotalXp(items);
    var level := totalXp / XpPerLevel + 1;
    var xpForCurrentLevel := (level - 1) * XpPerLevel;
    var xpForNextLevel := level * XpPerLevel;
    var xpInCurrentLevel := totalXp - xpForCurrentLevel;
    var xpNeeded := xpForNextLevel - xpForCurrentLevel;
    assert xpNeeded == XpPerLevel;
    assert 0 <= xpInCurrentLevel < XpPerLevel;
    var ratio := xpInCurrentLevel as real / xpNeeded as real * 100.0;
    ProgressInRange(xpInCurrentLevel);
    var progress := Min(100.0, Max(0.0, ratio));
    UserLevel(level, Title(level), xpInCurrentLevel, xpNeeded, progress)
  }

  /** In-level xp below one level's worth gives a percentage in [0, 100), so the clamp never acts. */
  lemma ProgressInRange(xp: int)
    requires 0 <= xp < XpPerLevel
    ensures xp as real / XpPerLevel as real * 100.0 == xp as real * 100.0 / XpPerLevel as real
    ensures 0.0 <= xp as real / XpPerLevel as real * 100.0 < 100.0
  {
  }

  function Min(a: real, b: real): real { if a <= b then a else b }
  function Max(a: real, b: real): real { if a >= b then a else b }

  /** Worked examples: no items, and five unvalued items (exactly one level up). */
  lemma LevelExamples(five: seq<ConsoleItem>)
    requires |five| == 5 && forall i :: 0 <= i < 5 ==> five[i].valuation.None?
    ensures CalculateLevel([]).currentLevel == 1 && CalculateLevel([]).xpCurrent == 0
    ensures CalculateLevel(five).currentLevel == 2 && CalculateLevel(five).progressPercent == 0.0
  {
    assert TotalValue(five[4..]) == 0;
    assert five[3..][1..] == five[4..];
    assert TotalValue(five[3..]) == 0;
    assert five[2..][1..] == five[3..];
    assert TotalValue(five[2..]) == 0;
    assert five[1..][1..] == five[2..];
    assert TotalValue(five[1..]) == 0;
    assert TotalValue(five) == 0;
  }

  /** Adding an item with a non-negative price, prepended or appended, never lowers the level or the title. */
  lemma LevelMonotoneOnAdd(items: seq<ConsoleItem>, item: ConsoleItem)
    requires ItemPrice(item) >= 0
    ensures CalculateLevel([item] + items).currentLevel >= CalculateLevel(items).currentLevel
    ensures CalculateLevel(items + [item]).currentLevel >= CalculateLevel(items).currentLevel
    ensures TitleRank(CalculateLevel([item] + items).currentLevel) >= TitleRank(CalculateLevel(items).currentLevel)
    ensures TitleRank(CalculateLevel(items + [item]).currentLevel) >= TitleRank(CalculateLevel(items).currentLevel)
  {
    XpGrowsOnAdd(items, item);
    LevelMonotoneInXp(items, [item] + items);
    LevelMonotoneInXp(items, items + [item]);
  }

  lemma XpGrowsOnAdd(items: seq<ConsoleItem>, item: ConsoleItem)
    requires ItemPrice(item) >= 0
    ensures TotalXp(items) <= TotalXp([item] + items)
    ensures TotalXp(items) <= TotalXp(items + [item])
  {
    assert ([item] + items)[1..] == items;
    TotalValueConcat(items, [item]);
    assert TotalValue([item]) == ItemPrice(item) by { assert [item][1..] == []; }
    XpDivMonotone(TotalValue(items), ItemPrice(item));
  }

  lemma LevelMonotoneInXp(a: seq<ConsoleItem>, b: seq<ConsoleItem>)
    requires TotalXp(a) <= TotalXp(b)
    ensures CalculateLevel(a).currentLevel <= CalculateLevel(b).currentLevel
    ensures TitleRank(CalculateLevel(a).currentLevel) <= TitleRank(CalculateLevel(b).currentLevel)
  {
    DivMonotone(TotalXp(a), TotalXp(b), XpPerLevel);
  }

  lemma XpDivMonotone(t: int, p: int)
    requires p >= 0
    ensures t / 5 <= (t + p) / 5
  {
    DivMonotone(t, t + p, 5);
  }

  lemma DivMonotone(a: int, b: int, d: int)
    requires a <= b && (d == 5 || d == XpPerLevel)
    ensures a / d <= b / d
  {
  }

  // ---------------------------------------------------------------- achievements

  /** The predicate an achievement tests (the `condition` closure of each table entry). */
  datatype Rule =
    | MinItems(count: nat)
    | BrandItems(brand: string, count: nat)
    | AnyItemWorth(price: int)
    | TotalWorth(total: int)
    | DistinctManufacturers(count: nat)

  /** What an achievement shows (the table entry without its `condition`). */
  datatype AchievementDef = AchievementDef(id: string, title: string, description: string, imageUrl: string)

  /** The fixed, ordered achievement table ... */
  const AchievementTable: seq<AchievementDef> := [
    AchievementDef("start", "INSERT COIN", "Adicione seu primeiro item.", "https://img.icons8.com/pixel-minecraft/100/egg.png"),
    AchievementDef("stack", "PILHA DE JOGOS", "Colecione 5 itens.", "https://img.icons8.com/pixel-minecraft/100/book.png"),
    AchievementDef("nintendo", "SUPER FANBOY", "Tenha 3 itens da Nintendo.", "https://img.icons8.com/pixel-minecraft/100/red-mushroom.png"),
    AchievementDef("sega", "BLAST PROCESS", "Tenha 3 itens da Sega.", "https://img.icons8.com/pixel-minecraft/100/gold-ring.png"),
    AchievementDef("sony", "PLAYSTATION", "Tenha 3 itens da Sony.", "https://img.icons8.com/pixel-minecraft/100/game-controller.png"),
    AchievementDef("rich", "HIGH SCORE", "Item > R$ 2.000.", "https://img.icons8.com/pixel-minecraft/100/diamond.png"),
    AchievementDef("hoarder", "MUSEU 8-BIT", "Total > R$ 10.000.", "https://img.icons8.com/pixel-minecraft/100/chest.png"),
    AchievementDef("variety", "MULTIPLATAFORMA", "4 fabricantes diferentes.", "https://img.icons8.com/pixel-minecraft/100/compass.png")
  ]

  /** ... and the `condition` of each entry, in the same order. */
  const AchievementRules: seq<Rule> := [
    MinItems(1),
    MinItems(5),
    BrandItems("nintendo", 3),
    BrandItems("sega", 3),
    BrandItems("sony", 3),
    AnyItemWorth(2000),
    TotalWorth(10000),
    DistinctManufacturers(4)
  ]

  /** Number of items whose lower-cased manufacturer contains `brand`. */
  function BrandCount(items: seq<ConsoleItem>, brand: string): (n: nat)
    ensures n <= |items|
  {
    if items == [] then 0
    else (if Contains(Lower(items[0].manufacturer), brand) then 1 else 0) + BrandCount(items[1..], brand)
  }

  /** Some item's manufacturer lower-cases to `k`. */
  predicate HasManufacturerKey(items: seq<ConsoleItem>, k: string) {
    exists i :: 0 <= i < |items| && Lower(items[i].manufacturer) == k
  }

  lemma HasManufacturerKeyCons(items: seq<ConsoleItem>, k: string)
    requires items != []
    ensures HasManufacturerKey(items, k) <==> Lower(items[0].manufacturer) == k || HasManufacturerKey(items[1..], k)
  {
    if i :| 0 <= i < |items| && Lower(items[i].manufacturer) == k {
      if i > 0 { assert items[1..][i - 1] == items[i]; }
    }
    if i :| 0 <= i < |items[1..]| && Lower(items[1..][i].manufacturer) == k {
      assert items[i + 1] == items[1..][i];
    }
  }

  /** The set of lower-cased, non-empty manufacturers. */
  function ManufacturerKeys(items: seq<ConsoleItem>): (keys: set<string>)
    ensures forall k :: k in keys ==> k != ""
    ensures forall k :: k in keys <==> k != "" && HasManufacturerKey(items, k)
    ensures |keys| <= |items|
  {
    if items == [] then {}
    else
      var m := Lower(items[0].manufacturer);
      var rest := ManufacturerKeys(items[1..]);
      assert forall k :: HasManufacturerKey(items, k) <==> k == m || HasManufacturerKey(items[1..], k) by {
        forall k ensures HasManufacturerKey(items, k) <==> k == m || HasManufacturerKey(items[1..], k) {
          HasManufacturerKeyCons(items, k);
        }
      }
      var head: set<string> := if m != "" then {m} else {};
      assert |head + rest| <= |head| + |rest|;
      head + rest
  }

  predicate SomeItemWorth(items: seq<ConsoleItem>, price: int) {
    exists i :: 0 <= i < |items| && ItemPrice(items[i]) >= price
  }

  predicate Holds(rule: Rule, items: seq<ConsoleItem>) {
    match rule
    case MinItems(n) => |items| >= n
    case BrandItems(b, n) => BrandCount(items, b) >= n
    case AnyItemWorth(p) => SomeItemWorth(items, p)
    case TotalWorth(t) => TotalValue(items) >= t
    case DistinctManufacturers(n) => |ManufacturerKeys(items)| >= n
  }

  function Unlock(def: AchievementDef, rule: Rule, items: seq<ConsoleItem>): Achievement {
    Achievement(def.id, def.title, def.description, def.imageUrl, Holds(rule, items))
  }

  /** `checkAchievements`: the table mapped to its unlock status, in order. */
  function CheckAchievements(items: seq<ConsoleItem>): (r: seq<Achievement>)
    ensures |r| == |AchievementTable| == |AchievementRules| == 8
    ensures forall i :: 0 <= i < 8 ==>
      && r[i].id == AchievementTable[i].id
      && r[i].title == AchievementTable[i].title
      && r[i].description == AchievementTable[i].description
      && r[i].imageUrl == AchievementTable[i].imageUrl
      && r[i].isUnlocked == Holds(AchievementRules[i], items)
  {
    seq(|AchievementTable|, i requires 0 <= i < |AchievementTable| => Unlock(AchievementTable[i], AchievementRules[i], items))
  }

  /** The eight achievements in their fixed order. */
  lemma AchievementOrder(items: seq<ConsoleItem>)
    ensures var r := CheckAchievements(items);
      && r[0].id == "start" && r[1].id == "stack" && r[2].id == "nintendo" && r[3].id == "sega"
      && r[4].id == "sony" && r[5].id == "rich" && r[6].id == "hoarder" && r[7].id == "variety"
  {
  }

  /** The threshold each achievement tests (`CheckAchievements` unlocks entry i exactly when rule i holds). */
  lemma AchievementThresholds(items: seq<ConsoleItem>)
    ensures Holds(AchievementRules[0], items) <==> |items| >= 1
    ensures Holds(AchievementRules[1], items) <==> |items| >= 5
    ensures Holds(AchievementRules[2], items) <==> BrandCount(items, "nintendo") >= 3
    ensures Holds(AchievementRules[3], items) <==> BrandCount(items, "sega") >= 3
    ensures Holds(AchievementRules[4], items) <==> BrandCount(items, "sony") >= 3
    ensures Holds(AchievementRules[5], items) <==> SomeItemWorth(items, 2000)
    ensures Holds(AchievementRules[6], items) <==> TotalValue(items) >= 10000
    ensures Holds(AchievementRules[7], items) <==> |ManufacturerKeys(items)| >= 4
  {
    CountThresholds(items);
    BrandThresholds(items);
    ValueThresholds(items);
  }

  lemma CountThresholds(items: seq<ConsoleItem>)
    ensures Holds(AchievementRules[0], items) <==> |items| >= 1
    ensures Holds(AchievementRules[1], items) <==> |items| >= 5
  {
    assert AchievementRules[0] == MinItems(1) && AchievementRules[1] == MinItems(5);
  }

  lemma BrandThresholds(items: seq<ConsoleItem>)
    ensures Holds(AchievementRules[2], items) <==> BrandCount(items, "nintendo") >= 3
    ensures Holds(AchievementRules[3], items) <==> BrandCount(items, "sega") >= 3
    ensures Holds(AchievementRules[4], items) <==> BrandCount(items, "sony") >= 3
  {
    assert AchievementRules[2] == BrandItems("nintendo", 3);
    assert AchievementRules[3] == BrandItems("sega", 3);
    assert AchievementRules[4] == BrandItems("sony", 3);
  }

  lemma ValueThresholds(items: seq<ConsoleItem>)
    ensures Holds(AchievementRules[5], items) <==> SomeItemWorth(items, 2000)
    ensures Holds(AchievementRules[6], items) <==> TotalValue(items) >= 10000
    ensures Holds(AchievementRules[7], items) <==> |ManufacturerKeys(items)| >= 4
  {
    assert AchievementRules[5] == AnyItemWorth(2000) && AchievementRules[6] == TotalWorth(10000);
    assert AchievementRules[7] == DistinctManufacturers(4);
  }

  lemma HoldsMonotone(rule: Rule, items: seq<ConsoleItem>, item: ConsoleItem)
    requires ItemPrice(item) >= 0
    requires Holds(rule, items)
    ensures Holds(rule, [item] + items)
  {
    var items' := [item] + items;
    assert items'[1..] == items;
    match rule
    case AnyItemWorth(p) =>
      var i :| 0 <= i < |items| && ItemPrice(items[i]) >= p;
      assert items'[i + 1] == items[i];
    case DistinctManufacturers(n) =>
      assert ManufacturerKeys(items) <= ManufacturerKeys(items');
      SubsetCard(ManufacturerKeys(items), ManufacturerKeys(items'));
    case _ =>
  }

  /** The same for an appended item. */
  lemma HoldsMonotoneAppend(rule: Rule, items: seq<ConsoleItem>, item: ConsoleItem)
    requires ItemPrice(item) >= 0
    requires Holds(rule, items)
    ensures Holds(rule, items + [item])
  {
    var items' := items + [item];
    match rule
    case BrandItems(b, n) =>
      BrandCountAppend(items, item, b);
    case AnyItemWorth(p) =>
      var i :| 0 <= i < |items| && ItemPrice(items[i]) >= p;
      assert items'[i] == items[i];
    case TotalWorth(t) =>
      TotalValueConcat(items, [item]);
      assert TotalValue([item]) == ItemPrice(item) by { assert [item][1..] == []; }
    case DistinctManufacturers(n) =>
      forall k | k in ManufacturerKeys(items) ensures k in ManufacturerKeys(items') {
        var i :| 0 <= i < |items| && Lower(items[i].manufacturer) == k;
        assert items'[i] == items[i];
      }
      SubsetCard(ManufacturerKeys(items), ManufacturerKeys(items'));
    case MinItems(n) =>
  }

  lemma {:induction false} BrandCountAppend(items: seq<ConsoleItem>, item: ConsoleItem, brand: string)
    ensures BrandCount(items + [item], brand) >= BrandCount(items, brand)
  {
    if items != [] {
      assert (items + [item])[1..] == items[1..] + [item];
      BrandCountAppend(items[1..], item, brand);
    }
  }

  lemma SubsetCard<T>(a: set<T>, b: set<T>)
    requires a <= b
    ensures |a| <= |b|
  {
    assert b == a + (b - a);
  }

  /** Adding an item with a non-negative price, prepended or appended, never locks an unlocked achievement again. */
  lemma AchievementsNeverRelock(items: seq<ConsoleItem>, item: ConsoleItem)
    requires ItemPrice(item) >= 0
    ensures forall i :: 0 <= i < 8 && CheckAchievements(items)[i].isUnlocked ==>
      CheckAchievements([item] + items)[i].isUnlocked
    ensures forall i :: 0 <= i < 8 && CheckAchievements(items)[i].isUnlocked ==>
      CheckAchievements(items + [item])[i].isUnlocked
  {
    forall i | 0 <= i < 8 && CheckAchievements(items)[i].isUnlocked
      ensures CheckAchievements([item] + items)[i].isUnlocked
      ensures CheckAchievements(items + [item])[i].isUnlocked
    {
      HoldsMonotone(AchievementRules[i], items, item);
      HoldsMonotoneAppend(AchievementRules[i], items, item);
    }
  }

  /**
   * Brand matching is case-insensitive containment: three items whose
   * manufacturers contain the brand once lower-cased (such as "Nintendo",
   * "NINTENDO" and "nintendo Co", see NintendoSpellings) unlock the badge, two do not.
   */
  lemma NintendoExample(a: ConsoleItem, b: ConsoleItem, c: ConsoleItem)
    requires Contains(Lower(a.manufacturer), "nintendo")
    requires Contains(Lower(b.manufacturer), "nintendo")
    requires Contains(Lower(c.manufacturer), "nintendo")
    ensures BrandCount([a, b, c], "nintendo") == 3 && Holds(AchievementRules[2], [a, b, c])
    ensures !Holds(AchievementRules[2], [a, b])
  {
    BrandCountAllMatch([a, b, c], "nintendo");
  }

  lemma NintendoSpellings()
    ensures Contains(Lower("Nintendo"), "nintendo")
    ensures Contains(Lower("NINTENDO"), "nintendo")
    ensures Contains(Lower("nintendo Co"), "nintendo")
  {
    NintendoCapitalised();
    NintendoUpperCase();
    NintendoWithSuffix();
  }

  lemma NintendoCapitalised()
    ensures Contains(Lower("Nintendo"), "nintendo")
  {
    NintendoSpelling("Nintendo");
  }

  lemma NintendoUpperCase()
    ensures Contains(Lower("NINTENDO"), "nintendo")
  {
    NintendoSpelling("NINTENDO");
  }

  lemma NintendoWithSuffix()
    ensures Contains(Lower("nintendo Co"), "nintendo")
  {
    NintendoSpelling("nintendo Co");
  }

  lemma {:induction false} BrandCountAllMatch(items: seq<ConsoleItem>, brand: string)
    requires forall i :: 0 <= i < |items| ==> Contains(Lower(items[i].manufacturer), brand)
    ensures BrandCount(items, brand) == |items|
  {
    if items != [] {
      BrandCountAllMatch(items[1..], brand);
    }
  }

  /** A text whose lower-cased start spells `p` contains `p` once lower-cased. */
  lemma LowerPrefixContained(s: string, p: string)
    requires |p| <= |s|
    requires forall i :: 0 <= i < |p| ==> LowerChar(s[i]) == p[i]
    ensures Contains(Lower(s), p)
  {
    var l := Lower(s);
    assert l[..|p|] == p;
  }

  /** A name that starts with some capitalisation of "nintendo" contains the brand once lower-cased. */
  lemma NintendoSpelling(s: string)
    requires |s| >= 8
    requires forall i :: 0 <= i < 8 ==> LowerChar(s[i]) == "nintendo"[i]
    ensures Contains(Lower(s), "nintendo")
  {
    LowerPrefixContained(s, "nintendo");
  }
}
